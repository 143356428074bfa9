/** The step-by-step wizard of the home page: the held state (`step`, `form`,
    `result`), one transition per event handler, and the page object whose
    handler methods are proved against those transitions. */
module Wizard {
  import opened Classifier

  datatype Option<T> = None | Some(value: T)

  /** The `name` attributes of the wizard's inputs, one per key of the form. */
  datatype Field = Species | Breed | Age | GenderAndNeuterStatus | Symptoms | TimeElapsed

  function Get(form: Form, f: Field): string {
    match f
    case Species => form.species
    case Breed => form.breed
    case Age => form.age
    case GenderAndNeuterStatus => form.genderAndNeuterStatus
    case Symptoms => form.symptoms
    case TimeElapsed => form.timeElapsed
  }

  /** `{ ...form, [name]: value }`: the named field takes the new value and
      every other field keeps its old one. */
  function SetField(form: Form, f: Field, value: string): (r: Form)
    ensures Get(r, f) == value
    ensures forall g :: g != f ==> Get(r, g) == Get(form, g)
  {
    match f
    case Species => form.(species := value)
    case Breed => form.(breed := value)
    case Age => form.(age := value)
    case GenderAndNeuterStatus => form.(genderAndNeuterStatus := value)
    case Symptoms => form.(symptoms := value)
    case TimeElapsed => form.(timeElapsed := value)
  }

  /** A form is determined by its six fields. */
  lemma FormExtensionality(f: Form, g: Form)
    requires forall x: Field :: Get(f, x) == Get(g, x)
    ensures f == g
  {
    assert Get(f, Species) == Get(g, Species);
    assert Get(f, Breed) == Get(g, Breed);
    assert Get(f, Age) == Get(g, Age);
    assert Get(f, GenderAndNeuterStatus) == Get(g, GenderAndNeuterStatus);
    assert Get(f, Symptoms) == Get(g, Symptoms);
    assert Get(f, TimeElapsed) == Get(g, TimeElapsed);
  }

  /** Writing the value a field already holds changes nothing. */
  lemma SetFieldToSame(form: Form, f: Field)
    ensures SetField(form, f, Get(form, f)) == form
  {
  }

  /** Of two changes to the same field the later one wins. */
  lemma SetFieldTwice(form: Form, f: Field, v: string, w: string)
    ensures SetField(SetField(form, f, v), f, w) == SetField(form, f, w)
  {
  }

  /** Changes to two different fields do not interfere. */
  lemma SetFieldCommutes(form: Form, f: Field, v: string, g: Field, w: string)
    requires f != g
    ensures SetField(SetField(form, f, v), g, w) == SetField(SetField(form, g, w), f, v)
  {
  }

  /** The last input step (the elapsed-time question) and the result screen. */
  const LastInputStep: int := 6
  const ResultStep: int := 7

  datatype State = State(step: int, form: Form, result: Option<TriageResult>)

  /** `useState(initialForm)`, `useState(1)`, `useState(null)`. */
  const Start: State := State(1, InitialForm, None)

  /** The events the page reacts to, one per handler. */
  datatype Event = InputChange(field: Field, value: string) | Next | Prev | Restart

  ghost predicate InRange(s: State) {
    1 <= s.step <= ResultStep
  }

  /** The state after one handler has run. */
  function Apply(s: State, e: Event): (r: State)
    ensures InRange(s) ==> InRange(r)
  {
    match e
    case InputChange(f, v) => s.(form := SetField(s.form, f, v))
    case Next =>
      if s.step < LastInputStep then s.(step := s.step + 1)
      else s.(result := Some(Triage(s.form)), step := ResultStep)
    case Prev => if s.step > 1 then s.(step := s.step - 1) else s
    case Restart => Start
  }

  /** The state after a sequence of events, handled in order. */
  function Run(s: State, es: seq<Event>): State
    decreases |es|
  {
    if es == [] then s else Run(Apply(s, es[0]), es[1..])
  }

  /** However the events come, the step stays within 1..7. */
  lemma {:induction false} RunKeepsRange(s: State, es: seq<Event>)
    requires InRange(s)
    ensures InRange(Run(s, es))
    decreases |es|
  {
    if es != [] {
      RunKeepsRange(Apply(s, es[0]), es[1..]);
    }
  }

  /** Running two sequences one after the other is running their concatenation. */
  lemma {:induction false} RunConcat(s: State, es: seq<Event>, fs: seq<Event>)
    ensures Run(s, es + fs) == Run(Run(s, es), fs)
    decreases |es|
  {
    if es != [] {
      assert (es + fs)[0] == es[0];
      assert (es + fs)[1..] == es[1..] + fs;
      RunConcat(Apply(s, es[0]), es[1..], fs);
    } else {
      assert es + fs == fs;
    }
  }

  /** Five presses of Next walk a form from the first question to the last;
      the sixth computes the triage of the form as it stands and shows it. */
  lemma NextSixTimes(form: Form, result: Option<TriageResult>)
    ensures Run(State(1, form, result), [Next, Next, Next, Next, Next])
         == State(LastInputStep, form, result)
    ensures Run(State(1, form, result), [Next, Next, Next, Next, Next, Next])
         == State(ResultStep, form, Some(Triage(form)))
  {
  }

  /** Back undoes Next on the question screens. */
  lemma NextThenPrev(s: State)
    requires 1 <= s.step < LastInputStep
    ensures Apply(Apply(s, Next), Prev) == s
  {
  }

  /** Next undoes Back, except that leaving the result screen and coming back
      recomputes the result from the current form. */
  lemma PrevThenNext(s: State)
    requires 2 <= s.step <= ResultStep
    ensures s.step <= LastInputStep ==> Apply(Apply(s, Prev), Next) == s
    ensures s.step == ResultStep ==>
      Apply(Apply(s, Prev), Next) == s.(result := Some(Triage(s.form)))
  {
  }

  /** What the result screen shows is the triage of the current form. */
  ghost predicate ShowsCurrentForm(s: State) {
    InRange(s) && (s.step == ResultStep ==> s.result == Some(Triage(s.form)))
  }

  /** Every handler keeps the result screen faithful to the form, except an
      input change made while the result screen is up (the page renders no
      input there). */
  lemma ApplyShowsCurrentForm(s: State, e: Event)
    requires ShowsCurrentForm(s)
    requires e.InputChange? ==> s.step < ResultStep
    ensures ShowsCurrentForm(Apply(s, e))
  {
  }

  /** Restart returns to the very first screen from anywhere, so it is idempotent. */
  lemma RestartResets(s: State, es: seq<Event>)
    ensures Run(s, es + [Restart]) == Start
    ensures Apply(Apply(s, Restart), Restart) == Apply(s, Restart)
  {
    RunConcat(s, es, [Restart]);
  }

  /** The home page component, holding the wizard's state in three fields. */
  class Home {
    var step: int
    var form: Form
    var result: Option<TriageResult>

    function Snapshot(): State
      reads this
    {
      State(step, form, result)
    }

    ghost predicate Valid()
      reads this
    {
      InRange(Snapshot())
    }

    constructor ()
      ensures Valid()
      ensures Snapshot() == Start
    {
      step := 1;
      form := InitialForm;
      result := None;
    }

    /** `handleInputChange`: the input named f now holds value. */
    method HandleInputChange(f: Field, value: string)
      requires Valid()
      modifies this
      ensures Valid()
      ensures form == SetField(old(form), f, value)
      ensures step == old(step) && result == old(result)
      ensures Snapshot() == Apply(old(Snapshot()), InputChange(f, value))
    {
      form := SetField(form, f, value);
    }

    /** `handleNext`: the next question, or the triage result after the last one. */
    method HandleNext()
      requires Valid()
      modifies this
      ensures Valid()
      ensures old(step) < LastInputStep ==> step == old(step) + 1 && result == old(result)
      ensures old(step) >= LastInputStep ==> step == ResultStep && result == Some(Triage(old(form)))
      ensures form == old(form)
      ensures Snapshot() == Apply(old(Snapshot()), Next)
    {
      if step < LastInputStep {
        step := step + 1;
      } else {
        result := Some(Triage(form));
        step := ResultStep;
      }
    }

    /** `handlePrev`: the previous question, never before the first. */
    method HandlePrev()
      requires Valid()
      modifies this
      ensures Valid()
      ensures step == if old(step) > 1 then old(step) - 1 else old(step)
      ensures form == old(form) && result == old(result)
      ensures Snapshot() == Apply(old(Snapshot()), Prev)
    {
      if step > 1 {
        step := step - 1;
      }
    }

    /** `handleRestart`: back to an empty form on the first question. */
    method HandleRestart()
      requires Valid()
      modifies this
      ensures Valid()
      ensures step == 1 && form == InitialForm && result == None
      ensures Snapshot() == Apply(old(Snapshot()), Restart)
    {
      form := InitialForm;
      step := 1;
      result := None;
    }
  }
}
