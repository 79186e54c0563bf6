/**
 * The artist onboarding wizard: a three-step form whose "Next" button
 * validates only the fields of the current step, two checkbox lists that
 * are kept both in component state and in the form values, and a submit
 * that validates the whole schema and then resets everything.
 */
module Onboarding {
  import Seqs

  // ---------------------------------------------------------------------
  // The form values and the schema

  datatype TextField = Name | Email | Phone | Bio | FeeRange | Location | Experience | Portfolio

  /** A field of the schema: a text field or one of the two selection lists. */
  datatype Field = Text(text: TextField) | Categories | Languages

  datatype FormData = FormData(
    name: string,
    email: string,
    phone: string,
    bio: string,
    categories: seq<string>,
    languages: seq<string>,
    feeRange: string,
    location: string,
    experience: string,
    portfolio: string)

  /**
   * The e-mail and URL syntax checks belong to the validation library and
   * are not modelled; they are given to the model as two predicates.
   */
  datatype Validators = Validators(isEmail: string -> bool, isUrl: string -> bool)

  /** The values the form starts from and returns to on reset. */
  function DefaultValues(): FormData
  {
    FormData("", "", "", "", [], [], "", "", "", "")
  }

  function TextValue(d: FormData, f: TextField): string
  {
    match f
    case Name => d.name
    case Email => d.email
    case Phone => d.phone
    case Bio => d.bio
    case FeeRange => d.feeRange
    case Location => d.location
    case Experience => d.experience
    case Portfolio => d.portfolio
  }

  /** The form values after the user has typed `s` into text field `f`. */
  function WithText(d: FormData, f: TextField, s: string): (e: FormData)
    ensures TextValue(e, f) == s
    ensures forall g :: g != f ==> TextValue(e, g) == TextValue(d, g)
    ensures e.categories == d.categories && e.languages == d.languages
  {
    match f
    case Name => d.(name := s)
    case Email => d.(email := s)
    case Phone => d.(phone := s)
    case Bio => d.(bio := s)
    case FeeRange => d.(feeRange := s)
    case Location => d.(location := s)
    case Experience => d.(experience := s)
    case Portfolio => d.(portfolio := s)
  }

  /** The rule the schema attaches to each field. */
  predicate FieldValid(v: Validators, d: FormData, f: Field)
  {
    match f
    case Text(Name) => |d.name| >= 2
    case Text(Email) => v.isEmail(d.email)
    case Text(Phone) => |d.phone| >= 10
    case Text(Bio) => |d.bio| >= 50
    case Categories => |d.categories| >= 1
    case Languages => |d.languages| >= 1
    case Text(FeeRange) => |d.feeRange| >= 1
    case Text(Location) => |d.location| >= 2
    case Text(Experience) => |d.experience| >= 1
    // optional: the empty string or a URL
    case Text(Portfolio) => d.portfolio == "" || v.isUrl(d.portfolio)
  }

  /** The fields of the schema, in declaration order. */
  function AllFields(): seq<Field>
  {
    [Text(Name), Text(Email), Text(Phone), Text(Bio), Categories, Languages,
     Text(FeeRange), Text(Location), Text(Experience), Text(Portfolio)]
  }

  /** The whole schema holds, as checked before the form is submitted. */
  predicate FormValid(v: Validators, d: FormData)
  {
    forall f :: f in AllFields() ==> FieldValid(v, d, f)
  }

  lemma AllFieldsComplete(f: Field)
    ensures f in AllFields()
  {
    match f
    case Text(t) =>
      match t {
        case Name => assert AllFields()[0] == f;
        case Email => assert AllFields()[1] == f;
        case Phone => assert AllFields()[2] == f;
        case Bio => assert AllFields()[3] == f;
        case FeeRange => assert AllFields()[6] == f;
        case Location => assert AllFields()[7] == f;
        case Experience => assert AllFields()[8] == f;
        case Portfolio => assert AllFields()[9] == f;
      }
    case Categories => assert AllFields()[4] == f;
    case Languages => assert AllFields()[5] == f;
  }

  // ---------------------------------------------------------------------
  // Per-step validation

  /** The fields "Next" validates on a given step; any step other than 1 and 2 checks the last group. */
  function FieldsToValidate(step: int): seq<Field>
  {
    if step == 1 then [Text(Name), Text(Email), Text(Phone)]
    else if step == 2 then [Text(Bio), Categories, Languages]
    else [Text(FeeRange), Text(Location), Text(Experience)]
  }

  /** The step whose "Next" validates `f`; the portfolio is validated by none (0). */
  function StepOf(f: Field): nat
  {
    match f
    case Text(Name) | Text(Email) | Text(Phone) => 1
    case Text(Bio) | Categories | Languages => 2
    case Text(FeeRange) | Text(Location) | Text(Experience) => 3
    case Text(Portfolio) => 0
  }

  /** The three groups split the schema: each field but the portfolio is checked on exactly one step. */
  lemma FieldsToValidateByStep(step: int, f: Field)
    requires 1 <= step <= 3
    ensures f in FieldsToValidate(step) <==> StepOf(f) == step
  {
  }

  predicate StepValid(v: Validators, d: FormData, step: int)
  {
    forall f :: f in FieldsToValidate(step) ==> FieldValid(v, d, f)
  }

  lemma StepValidAt(v: Validators, d: FormData, step: int, f0: Field, f1: Field, f2: Field)
    requires FieldsToValidate(step) == [f0, f1, f2]
    ensures StepValid(v, d, step) <==> FieldValid(v, d, f0) && FieldValid(v, d, f1) && FieldValid(v, d, f2)
  {
    var fs := FieldsToValidate(step);
    assert fs[0] == f0 && fs[1] == f1 && fs[2] == f2;
  }

  /** What each step demands before "Next" moves on. */
  lemma StepGates(v: Validators, d: FormData)
    ensures StepValid(v, d, 1) <==> |d.name| >= 2 && v.isEmail(d.email) && |d.phone| >= 10
    ensures StepValid(v, d, 2) <==> |d.bio| >= 50 && |d.categories| >= 1 && |d.languages| >= 1
    ensures StepValid(v, d, 3) <==> |d.feeRange| >= 1 && |d.location| >= 2 && |d.experience| >= 1
  {
    StepValidAt(v, d, 1, Text(Name), Text(Email), Text(Phone));
    StepValidAt(v, d, 2, Text(Bio), Categories, Languages);
    StepValidAt(v, d, 3, Text(FeeRange), Text(Location), Text(Experience));
  }

  /** A 49-character bio blocks step 2 and a 50-character one lets it pass. */
  lemma BioBoundary(v: Validators, d: FormData)
    requires |d.categories| >= 1 && |d.languages| >= 1
    ensures |d.bio| == 49 ==> !StepValid(v, d, 2)
    ensures |d.bio| == 50 ==> StepValid(v, d, 2)
  {
    StepGates(v, d);
  }

  /**
   * Passing the three steps and the portfolio rule is exactly passing the
   * whole schema.
   */
  lemma StepsCoverSchema(v: Validators, d: FormData)
    ensures FormValid(v, d) <==>
      StepValid(v, d, 1) && StepValid(v, d, 2) && StepValid(v, d, 3) && FieldValid(v, d, Text(Portfolio))
  {
    if StepValid(v, d, 1) && StepValid(v, d, 2) && StepValid(v, d, 3) && FieldValid(v, d, Text(Portfolio)) {
      forall f | f in AllFields() ensures FieldValid(v, d, f) {
        if StepOf(f) != 0 {
          FieldsToValidateByStep(StepOf(f), f);
        }
      }
    }
    if FormValid(v, d) {
      forall k, f | 1 <= k <= 3 && f in FieldsToValidate(k) ensures FieldValid(v, d, f) {
        AllFieldsComplete(f);
      }
      AllFieldsComplete(Text(Portfolio));
    }
  }

  /** The empty form passes no step and not the schema, though its empty portfolio is accepted. */
  lemma DefaultsBlockEveryStep(v: Validators)
    ensures forall k :: 1 <= k <= 3 ==> !StepValid(v, DefaultValues(), k)
    ensures !FormValid(v, DefaultValues())
    ensures FieldValid(v, DefaultValues(), Text(Portfolio))
  {
    StepGates(v, DefaultValues());
    StepsCoverSchema(v, DefaultValues());
  }

  // ---------------------------------------------------------------------
  // The step counter

  const StepTitles: seq<string> := ["Personal Info", "Artist Details", "Pricing & Location"]

  /** The step after "Next": one further when the step's fields are valid, capped at 3. */
  function NextStepOf(step: int, valid: bool): (r: int)
    ensures 1 <= step <= 3 ==> 1 <= r <= 3
    ensures step <= 3 ==> step <= r <= step + 1
    ensures !valid ==> r == step
    ensures valid && step < 3 ==> r == step + 1
    ensures valid && step >= 3 ==> r == 3
  {
    if valid then (if step + 1 < 3 then step + 1 else 3) else step
  }

  /** The step after "Previous": one back, never below 1. */
  function PrevStepOf(step: int): (r: int)
    ensures 1 <= step <= 3 ==> 1 <= r <= 3
    ensures step >= 1 ==> r <= step && step - 1 <= r
    ensures step >= 2 ==> r == step - 1
    ensures step <= 1 ==> r == 1
  {
    if step - 1 > 1 then step - 1 else 1
  }

  /** "Previous" undoes a successful "Next" and the other way round, away from the ends. */
  lemma StepRoundTrips(k: int)
    requires 1 <= k <= 3
    ensures k < 3 ==> PrevStepOf(NextStepOf(k, true)) == k
    ensures k > 1 ==> NextStepOf(PrevStepOf(k), true) == k
    ensures k == 3 ==> NextStepOf(k, true) == 3
    ensures k == 1 ==> PrevStepOf(k) == 1
  {
  }

  // ---------------------------------------------------------------------
  // Checkbox lists

  function Differs(id: string): string -> bool
  {
    x => x != id
  }

  /**
   * The list after a checkbox change: checking appends the id, unchecking
   * removes every occurrence of it.
   */
  function Toggle(list: seq<string>, id: string, checked: bool): (r: seq<string>)
    ensures checked ==> |r| == |list| + 1 && r[..|list|] == list && r[|list|] == id
    ensures !checked ==> id !in r && Seqs.IsSubsequence(r, list)
    ensures !checked ==> forall i :: 0 <= i < |list| && list[i] != id ==> list[i] in r
  {
    if checked then list + [id]
    else
      Seqs.FilterIsSubsequence(list, Differs(id));
      Seqs.Filter(list, Differs(id))
  }

  /** Unchecking keeps every other entry as often as it was there. */
  lemma UncheckMultiplicity(list: seq<string>, id: string, x: string)
    ensures multiset(Toggle(list, id, false))[x] == if x == id then 0 else multiset(list)[x]
  {
    Seqs.FilterMultiplicity(list, Differs(id), x);
  }

  /** Unchecking an absent id changes nothing, and unchecking undoes checking. */
  lemma UncheckUndoesCheck(list: seq<string>, id: string)
    requires id !in list
    ensures Toggle(list, id, false) == list
    ensures Toggle(Toggle(list, id, true), id, false) == list
  {
    Seqs.FilterKeepsAll(list, Differs(id));
    Seqs.FilterAppend(list, [id], Differs(id));
  }

  // ---------------------------------------------------------------------
  // The component state

  class Wizard {
    var currentStep: int
    var selectedCategories: seq<string>
    var selectedLanguages: seq<string>
    var values: FormData

    /** The step is one of the three, and the two checkbox lists mirror the form values. */
    ghost predicate Valid()
      reads this
    {
      && 1 <= currentStep <= 3
      && values.categories == selectedCategories
      && values.languages == selectedLanguages
    }

    constructor ()
      ensures Valid()
      ensures currentStep == 1 && selectedCategories == [] && selectedLanguages == []
      ensures values == DefaultValues()
    {
      currentStep := 1;
      selectedCategories := [];
      selectedLanguages := [];
      values := DefaultValues();
    }

    /** The heading of the current step; the index is always in range. */
    function StepTitle(): (t: string)
      reads this
      requires Valid()
      ensures t in StepTitles
    {
      StepTitles[currentStep - 1]
    }

    /** The user types `s` into the text field `f`. */
    method Edit(f: TextField, s: string)
      requires Valid()
      modifies this
      ensures Valid()
      ensures values == WithText(old(values), f, s)
      ensures currentStep == old(currentStep)
      ensures selectedCategories == old(selectedCategories) && selectedLanguages == old(selectedLanguages)
    {
      values := WithText(values, f, s);
    }

    method NextStep(v: Validators)
      requires Valid()
      modifies this
      ensures Valid()
      ensures currentStep == NextStepOf(old(currentStep), StepValid(v, old(values), old(currentStep)))
      ensures values == old(values)
      ensures selectedCategories == old(selectedCategories) && selectedLanguages == old(selectedLanguages)
    {
      var isValid := StepValid(v, values, currentStep);
      if isValid {
        currentStep := if currentStep + 1 < 3 then currentStep + 1 else 3;
      }
    }

    method PrevStep()
      requires Valid()
      modifies this
      ensures Valid()
      ensures currentStep == PrevStepOf(old(currentStep))
      ensures values == old(values)
      ensures selectedCategories == old(selectedCategories) && selectedLanguages == old(selectedLanguages)
    {
      currentStep := if currentStep - 1 > 1 then currentStep - 1 else 1;
    }

    method HandleCategoryChange(categoryId: string, checked: bool)
      requires Valid()
      modifies this
      ensures Valid()
      ensures selectedCategories == Toggle(old(selectedCategories), categoryId, checked)
      ensures values == old(values).(categories := selectedCategories)
      ensures currentStep == old(currentStep) && selectedLanguages == old(selectedLanguages)
    {
      var newCategories := Toggle(selectedCategories, categoryId, checked);
      selectedCategories := newCategories;
      values := values.(categories := newCategories);
    }

    method HandleLanguageChange(languageId: string, checked: bool)
      requires Valid()
      modifies this
      ensures Valid()
      ensures selectedLanguages == Toggle(old(selectedLanguages), languageId, checked)
      ensures values == old(values).(languages := selectedLanguages)
      ensures currentStep == old(currentStep) && selectedCategories == old(selectedCategories)
    {
      var newLanguages := Toggle(selectedLanguages, languageId, checked);
      selectedLanguages := newLanguages;
      values := values.(languages := newLanguages);
    }

    /**
     * Submitting validates the whole schema; on success the form, both
     * selection lists and the step counter return to their initial state,
     * otherwise nothing changes.
     */
    method Submit(v: Validators) returns (submitted: bool)
      requires Valid()
      modifies this
      ensures Valid()
      ensures submitted == FormValid(v, old(values))
      ensures submitted ==> currentStep == 1 && values == DefaultValues()
      ensures submitted ==> selectedCategories == [] && selectedLanguages == []
      ensures !submitted ==> currentStep == old(currentStep) && values == old(values)
      ensures !submitted ==> selectedCategories == old(selectedCategories) && selectedLanguages == old(selectedLanguages)
    {
      submitted := FormValid(v, values);
      if submitted {
        values := DefaultValues();
        selectedCategories := [];
        selectedLanguages := [];
        currentStep := 1;
      }
    }
  }
}
