/** The keyword triage classifier of the home page: the wizard's form, the
    fixed option and keyword lists, and `triage`, which turns the symptom
    text and the elapsed-time phrase into one of three urgency tiers. */
module Classifier {
  import opened Strings

  /** The three values `triage_level` can take. */
  datatype Level = Stable | Urgent | Emergency {
    /** The string the page stores in `triage_level`; each tier has its own. */
    function Name(): (r: string)
      ensures r == "stable" <==> this == Stable
      ensures r == "urgent" <==> this == Urgent
      ensures r == "emergency" <==> this == Emergency
    {
      match this
      case Stable => "stable"
      case Urgent => "urgent"
      case Emergency => "emergency"
    }
  }

  datatype TriageResult = TriageResult(level: Level, recommendation: string)

  /** The wizard's form; every field is a string, empty until filled in. */
  datatype Form = Form(
    species: string,
    breed: string,
    age: string,
    genderAndNeuterStatus: string,
    symptoms: string,
    timeElapsed: string)

  const InitialForm: Form := Form("", "", "", "", "", "")

  const SpeciesOptions: seq<string> := ["Dog", "Cat"]
  const GenderOptions: seq<string> := ["FE", "ME", "FN", "MN"]
  const TimeElapsedOptions: seq<string> := [
    "<30 minutes ago",
    "1-2 hours ago",
    "less than 4 - 6 hours ago",
    "less than 12 hours ago",
    "less than 24 hours ago",
    "more than 24-48 hours ago"
  ]

  /** Keywords of acute, life-threatening presentations. */
  /** The form starts unanswered: no dropdown of the wizard has a listed option selected. */
  lemma InitialFormUnanswered()
    ensures InitialForm.species !in SpeciesOptions
    ensures InitialForm.genderAndNeuterStatus !in GenderOptions
    ensures InitialForm.timeElapsed !in TimeElapsedOptions
  {
  }

  const EmergencySigns: seq<string> := [
    "collapse", "trouble breathing", "difficulty breathing", "unproductive vomiting",
    "cyanotic", "seizure", "no urine", "straining to urinate", "blue gums", "white gums",
    "unresponsive", "bleeding that won't stop", "distended abdomen", "shock"
  ]

  /** Keywords of significant but not immediately life-threatening presentations. */
  const UrgentSigns: seq<string> := [
    "vomiting", "diarrhea", "lethargy", "not eating", "weakness", "blood in urine", "shaking",
    "pale gums", "tremors"
  ]

  const StableAdvice: string := "Monitor at home. If symptoms worsen, see a vet within the week. Monitor for signs of deterioration including worsening vomiting or diarrhoea, lethargy, collapse, tremoring, shivering and pale mucous membranes."
  const EmergencyAdvice: string := "Your pet may require urgent veterinary care. Go to a veterinary clinic immediately."
  const UrgentAdvice: string := "See a vet within 24-48 hours. Monitor for signs of deterioration including worsening vomiting or diarrhoea, lethargy, collapse, tremoring, shivering and pale mucous membranes."

  /** The one recommendation attached to each tier. */
  function Advice(level: Level): (r: string)
    ensures r == StableAdvice <==> level == Stable
    ensures r == UrgentAdvice <==> level == Urgent
    ensures r == EmergencyAdvice <==> level == Emergency
  {
    match level
    case Stable => StableAdvice
    case Urgent => UrgentAdvice
    case Emergency => EmergencyAdvice
  }

  /** `[symptoms, time_elapsed].join(" ").toLowerCase()`. */
  function ScannedText(form: Form): (r: string)
    ensures r == ToLower(form.symptoms) + " " + ToLower(form.timeElapsed)
  {
    ToLowerConcat(form.symptoms + " ", form.timeElapsed);
    ToLowerConcat(form.symptoms, " ");
    ToLower(form.symptoms + " " + form.timeElapsed)
  }

  /** `triage(form)`: emergency keywords are checked first, then urgent ones;
      the recommendation depends on the tier alone. */
  function Triage(form: Form): (r: TriageResult)
    ensures r.recommendation == Advice(r.level)
  {
    var text := ScannedText(form);
    if IncludesAny(text, EmergencySigns) then TriageResult(Emergency, EmergencyAdvice)
    else if IncludesAny(text, UrgentSigns) then TriageResult(Urgent, UrgentAdvice)
    else TriageResult(Stable, StableAdvice)
  }

  /** Emergency tier exactly when some emergency keyword occurs, whatever urgent keywords also occur. */
  lemma EmergencyTier(form: Form)
    ensures Triage(form).level == Emergency <==> Mentions(ScannedText(form), EmergencySigns)
    ensures Mentions(ScannedText(form), EmergencySigns) ==> Triage(form) == TriageResult(Emergency, EmergencyAdvice)
  {
  }

  /** Urgent tier exactly when no emergency keyword but some urgent keyword occurs. */
  lemma UrgentTier(form: Form)
    ensures Triage(form).level == Urgent <==>
      !Mentions(ScannedText(form), EmergencySigns) && Mentions(ScannedText(form), UrgentSigns)
    ensures Triage(form).level == Urgent ==> Triage(form).recommendation == UrgentAdvice
  {
  }

  /** Stable tier, the default, exactly when no keyword of either list occurs. */
  lemma StableTier(form: Form)
    ensures Triage(form).level == Stable <==>
      !Mentions(ScannedText(form), EmergencySigns) && !Mentions(ScannedText(form), UrgentSigns)
    ensures Triage(form).level == Stable ==> Triage(form).recommendation == StableAdvice
  {
  }

  /** Two strings that differ at most in the case of ASCII letters. */
  ghost predicate SameIgnoringCase(a: string, b: string) {
    |a| == |b| && forall i :: 0 <= i < |a| ==> LowerChar(a[i]) == LowerChar(b[i])
  }

  /** Matching ignores ASCII letter case: forms whose symptom and elapsed-time
      texts differ only in the case of ASCII letters are classified identically. */
  lemma CaseInsensitive(f: Form, g: Form)
    requires SameIgnoringCase(f.symptoms, g.symptoms)
    requires SameIgnoringCase(f.timeElapsed, g.timeElapsed)
    ensures Triage(f) == Triage(g)
  {
    var a, b := f.symptoms + " " + f.timeElapsed, g.symptoms + " " + g.timeElapsed;
    assert forall i :: 0 <= i < |a| ==> ToLower(a)[i] == ToLower(b)[i] by {
      forall i | 0 <= i < |a| ensures LowerChar(a[i]) == LowerChar(b[i]) {
        if i < |f.symptoms| {
        } else if i == |f.symptoms| {
        } else {
          assert a[i] == f.timeElapsed[i - |f.symptoms| - 1];
        }
      }
    }
    assert ScannedText(f) == ScannedText(g);
  }

  /** A keyword typed in any letter case inside the symptoms triggers its tier:
      an emergency keyword gives the emergency result. */
  lemma EmergencyInAnyCase(form: Form, w: string, k: int)
    requires 0 <= k < |EmergencySigns| && ToLower(w) == EmergencySigns[k]
    requires Occurs(w, form.symptoms)
    ensures Triage(form) == TriageResult(Emergency, EmergencyAdvice)
  {
    ScannedInAnyCase(form, w);
    EmergencyTier(form);
  }

  /** A keyword typed in any letter case inside the symptoms occurs in the scanned text. */
  lemma ScannedInAnyCase(form: Form, w: string)
    requires Occurs(w, form.symptoms)
    ensures Occurs(ToLower(w), ScannedText(form))
  {
    OccursInPrefix(w, form.symptoms, " " + form.timeElapsed);
    assert form.symptoms + (" " + form.timeElapsed) == form.symptoms + " " + form.timeElapsed;
    OccursLowered(w, form.symptoms + " " + form.timeElapsed);
  }

  /** An urgent keyword typed in any letter case gives the urgent result,
      provided no emergency keyword occurs. */
  lemma UrgentInAnyCase(form: Form, w: string, k: int)
    requires 0 <= k < |UrgentSigns| && ToLower(w) == UrgentSigns[k]
    requires Occurs(w, form.symptoms)
    requires !Mentions(ScannedText(form), EmergencySigns)
    ensures Triage(form) == TriageResult(Urgent, UrgentAdvice)
  {
    ScannedInAnyCase(form, w);
    UrgentTier(form);
  }
}
