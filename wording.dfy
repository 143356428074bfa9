/** Facts about the fixed wording of the page's keyword lists and
    elapsed-time options, and what they imply: choosing a listed elapsed-time
    option never changes the tier of a symptom text that matches no keyword. */
module Wording {
  import opened Strings
  import opened Classifier

  /** The first characters of the elapsed-time options. */
  const OptionInitials: set<char> := {'<', '1', 'l', 'm'}

  /** Each option is non-empty, lower-case and starts with one of OptionInitials. */
  lemma OptionShapes()
    ensures forall m :: 0 <= m < |TimeElapsedOptions| ==>
      |TimeElapsedOptions[m]| >= 1 && TimeElapsedOptions[m][0] in OptionInitials && NoUpper(TimeElapsedOptions[m])
  {
  }

  // The keywords that contain a space (emergency keywords 1-3, 6-9, 11 and 12,
  // urgent keywords 3, 5 and 7), in small groups to keep each proof small.

  /** Emergency keywords 1 to 3 have no space before an option's first character. */
  lemma SpaceNotBeforeOptionInEmergencySigns1To3(c: char)
    requires c in OptionInitials
    ensures SpaceNotBefore(EmergencySigns[1], c)
    ensures SpaceNotBefore(EmergencySigns[2], c)
    ensures SpaceNotBefore(EmergencySigns[3], c)
  {
  }

  /** Emergency keywords 6 to 9 have no space before an option's first character. */
  lemma SpaceNotBeforeOptionInEmergencySigns6To9(c: char)
    requires c in OptionInitials
    ensures SpaceNotBefore(EmergencySigns[6], c)
    ensures SpaceNotBefore(EmergencySigns[7], c)
    ensures SpaceNotBefore(EmergencySigns[8], c)
    ensures SpaceNotBefore(EmergencySigns[9], c)
  {
  }

  /** Emergency keywords 11 to 12 have no space before an option's first character. */
  lemma SpaceNotBeforeOptionInEmergencySigns11To12(c: char)
    requires c in OptionInitials
    ensures SpaceNotBefore(EmergencySigns[11], c)
    ensures SpaceNotBefore(EmergencySigns[12], c)
  {
  }

  /** The urgent keywords that contain a space have no space before an option's first character. */
  lemma SpaceNotBeforeOptionInUrgentSigns(c: char)
    requires c in OptionInitials
    ensures SpaceNotBefore(UrgentSigns[3], c)
    ensures SpaceNotBefore(UrgentSigns[5], c)
    ensures SpaceNotBefore(UrgentSigns[7], c)
  {
  }

  /** No space inside a keyword comes right before the first character of an
      elapsed-time option, and no keyword ends in a space. */
  lemma KeywordSpacing(c: char)
    requires c in OptionInitials
    ensures forall k :: 0 <= k < |EmergencySigns| ==> SpaceNotBefore(EmergencySigns[k], c)
    ensures forall k :: 0 <= k < |UrgentSigns| ==> SpaceNotBefore(UrgentSigns[k], c)
  {
    SpaceNotBeforeOptionInEmergencySigns1To3(c);
    SpaceNotBeforeOptionInEmergencySigns6To9(c);
    SpaceNotBeforeOptionInEmergencySigns11To12(c);
    SpaceNotBeforeOptionInUrgentSigns(c);
    forall k | 0 <= k < |EmergencySigns| ensures SpaceNotBefore(EmergencySigns[k], c) {
      if k in {0, 4, 5, 10, 13} {
        assert ' ' !in EmergencySigns[k];
      }
    }
    forall k | 0 <= k < |UrgentSigns| ensures SpaceNotBefore(UrgentSigns[k], c) {
      if k in {0, 1, 2, 4, 6, 8} {
        assert ' ' !in UrgentSigns[k];
      }
    }
  }

  // One lemma per elapsed-time option and keyword list: each compares the first
  // three characters of every keyword with every position of " " + option.

  lemma EmergencySignsAbsentFromOption0()
    ensures NoneOccur(EmergencySigns, " " + TimeElapsedOptions[0])
  {
    var b := " " + TimeElapsedOptions[0];
    forall k, i | 0 <= k < |EmergencySigns| ensures !OccursAt(EmergencySigns[k], b, i) {
      OccursAtStart(EmergencySigns[k], b, i);
    }
  }

  lemma UrgentSignsAbsentFromOption0()
    ensures NoneOccur(UrgentSigns, " " + TimeElapsedOptions[0])
  {
    var b := " " + TimeElapsedOptions[0];
    forall k, i | 0 <= k < |UrgentSigns| ensures !OccursAt(UrgentSigns[k], b, i) {
      OccursAtStart(UrgentSigns[k], b, i);
    }
  }

  lemma EmergencySignsAbsentFromOption1()
    ensures NoneOccur(EmergencySigns, " " + TimeElapsedOptions[1])
  {
    var b := " " + TimeElapsedOptions[1];
    forall k, i | 0 <= k < |EmergencySigns| ensures !OccursAt(EmergencySigns[k], b, i) {
      OccursAtStart(EmergencySigns[k], b, i);
    }
  }

  lemma UrgentSignsAbsentFromOption1()
    ensures NoneOccur(UrgentSigns, " " + TimeElapsedOptions[1])
  {
    var b := " " + TimeElapsedOptions[1];
    forall k, i | 0 <= k < |UrgentSigns| ensures !OccursAt(UrgentSigns[k], b, i) {
      OccursAtStart(UrgentSigns[k], b, i);
    }
  }

  lemma EmergencySignsAbsentFromOption2()
    ensures NoneOccur(EmergencySigns, " " + TimeElapsedOptions[2])
  {
    var b := " " + TimeElapsedOptions[2];
    forall k, i | 0 <= k < |EmergencySigns| ensures !OccursAt(EmergencySigns[k], b, i) {
      OccursAtStart(EmergencySigns[k], b, i);
    }
  }

  lemma UrgentSignsAbsentFromOption2()
    ensures NoneOccur(UrgentSigns, " " + TimeElapsedOptions[2])
  {
    var b := " " + TimeElapsedOptions[2];
    forall k, i | 0 <= k < |UrgentSigns| ensures !OccursAt(UrgentSigns[k], b, i) {
      OccursAtStart(UrgentSigns[k], b, i);
    }
  }

  lemma EmergencySignsAbsentFromOption3()
    ensures NoneOccur(EmergencySigns, " " + TimeElapsedOptions[3])
  {
    var b := " " + TimeElapsedOptions[3];
    forall k, i | 0 <= k < |EmergencySigns| ensures !OccursAt(EmergencySigns[k], b, i) {
      OccursAtStart(EmergencySigns[k], b, i);
    }
  }

  lemma UrgentSignsAbsentFromOption3()
    ensures NoneOccur(UrgentSigns, " " + TimeElapsedOptions[3])
  {
    var b := " " + TimeElapsedOptions[3];
    forall k, i | 0 <= k < |UrgentSigns| ensures !OccursAt(UrgentSigns[k], b, i) {
      OccursAtStart(UrgentSigns[k], b, i);
    }
  }

  lemma EmergencySignsAbsentFromOption4()
    ensures NoneOccur(EmergencySigns, " " + TimeElapsedOptions[4])
  {
    var b := " " + TimeElapsedOptions[4];
    forall k, i | 0 <= k < |EmergencySigns| ensures !OccursAt(EmergencySigns[k], b, i) {
      OccursAtStart(EmergencySigns[k], b, i);
    }
  }

  lemma UrgentSignsAbsentFromOption4()
    ensures NoneOccur(UrgentSigns, " " + TimeElapsedOptions[4])
  {
    var b := " " + TimeElapsedOptions[4];
    forall k, i | 0 <= k < |UrgentSigns| ensures !OccursAt(UrgentSigns[k], b, i) {
      OccursAtStart(UrgentSigns[k], b, i);
    }
  }

  lemma EmergencySignsAbsentFromOption5()
    ensures NoneOccur(EmergencySigns, " " + TimeElapsedOptions[5])
  {
    var b := " " + TimeElapsedOptions[5];
    forall k, i | 0 <= k < |EmergencySigns| ensures !OccursAt(EmergencySigns[k], b, i) {
      OccursAtStart(EmergencySigns[k], b, i);
    }
  }

  lemma UrgentSignsAbsentFromOption5()
    ensures NoneOccur(UrgentSigns, " " + TimeElapsedOptions[5])
  {
    var b := " " + TimeElapsedOptions[5];
    forall k, i | 0 <= k < |UrgentSigns| ensures !OccursAt(UrgentSigns[k], b, i) {
      OccursAtStart(UrgentSigns[k], b, i);
    }
  }

  /** The wording of an elapsed-time option o cannot trigger a tier: it is
      lower-case, no keyword occurs in " " + o, and no keyword has a space right
      before o's first character. */
  ghost predicate NeutralOption(o: string) {
    && |o| >= 1
    && ToLower(o) == o
    && NoneOccur(EmergencySigns, " " + o)
    && NoneOccur(UrgentSigns, " " + o)
    && (forall k :: 0 <= k < |EmergencySigns| ==> SpaceNotBefore(EmergencySigns[k], o[0]))
    && (forall k :: 0 <= k < |UrgentSigns| ==> SpaceNotBefore(UrgentSigns[k], o[0]))
  }

  /** No keyword occurs in " " + o for any listed option o. */
  lemma KeywordsAbsentFromOptions(m: int)
    requires 0 <= m < |TimeElapsedOptions|
    ensures NoneOccur(EmergencySigns, " " + TimeElapsedOptions[m])
    ensures NoneOccur(UrgentSigns, " " + TimeElapsedOptions[m])
  {
    if m == 0 {
      EmergencySignsAbsentFromOption0(); UrgentSignsAbsentFromOption0();
    } else if m == 1 {
      EmergencySignsAbsentFromOption1(); UrgentSignsAbsentFromOption1();
    } else if m == 2 {
      EmergencySignsAbsentFromOption2(); UrgentSignsAbsentFromOption2();
    } else if m == 3 {
      EmergencySignsAbsentFromOption3(); UrgentSignsAbsentFromOption3();
    } else if m == 4 {
      EmergencySignsAbsentFromOption4(); UrgentSignsAbsentFromOption4();
    } else {
      EmergencySignsAbsentFromOption5(); UrgentSignsAbsentFromOption5();
    }
  }

  /** Every listed elapsed-time option is neutral. */
  lemma NeutralWording(m: int)
    requires 0 <= m < |TimeElapsedOptions|
    ensures NeutralOption(TimeElapsedOptions[m])
  {
    var o := TimeElapsedOptions[m];
    OptionShapes();
    ToLowerOfNoUpper(o);
    KeywordSpacing(o[0]);
    KeywordsAbsentFromOptions(m);
  }

  /** A neutral elapsed-time phrase keeps a keyword-free symptom text stable. */
  lemma NeutralOptionKeepsStable(form: Form)
    requires NeutralOption(form.timeElapsed)
    requires !Mentions(ToLower(form.symptoms), EmergencySigns)
    requires !Mentions(ToLower(form.symptoms), UrgentSigns)
    ensures Triage(form) == TriageResult(Stable, StableAdvice)
  {
    NoMentionAcrossSpace(EmergencySigns, ToLower(form.symptoms), form.timeElapsed);
    NoMentionAcrossSpace(UrgentSigns, ToLower(form.symptoms), form.timeElapsed);
    StableTier(form);
  }

  /** For a symptom text that matches no keyword, any listed elapsed-time option
      keeps the result stable: the option's wording adds no keyword, and no
      keyword can straddle the space that joins the two texts. */
  lemma ListedOptionKeepsStable(form: Form)
    requires form.timeElapsed in TimeElapsedOptions
    requires !Mentions(ToLower(form.symptoms), EmergencySigns)
    requires !Mentions(ToLower(form.symptoms), UrgentSigns)
    ensures Triage(form) == TriageResult(Stable, StableAdvice)
  {
    var m :| 0 <= m < |TimeElapsedOptions| && TimeElapsedOptions[m] == form.timeElapsed;
    NeutralWording(m);
    NeutralOptionKeepsStable(form);
  }

  /** Every keyword is at least two characters long. */
  lemma KeywordLengths()
    ensures forall k :: 0 <= k < |EmergencySigns| ==> |EmergencySigns[k]| >= 2
    ensures forall k :: 0 <= k < |UrgentSigns| ==> |UrgentSigns[k]| >= 2
  {
  }

  /** Empty symptom text is the documented default: stable, whether or not an
      elapsed-time option has been chosen yet. */
  lemma EmptySymptomsAreStable(form: Form)
    requires form.symptoms == ""
    requires form.timeElapsed == "" || form.timeElapsed in TimeElapsedOptions
    ensures Triage(form) == TriageResult(Stable, StableAdvice)
  {
    KeywordLengths();
    if form.timeElapsed == "" {
      assert ScannedText(form) == " ";
      StableTier(form);
    } else {
      ListedOptionKeepsStable(form);
    }
  }
}
