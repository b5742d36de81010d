/**
 * The product page's six-step form: the field values, the step counter, the
 * required-field check that guards submission, the template step that follows
 * it, and the two field classification tables.
 */
module ProductWizard {
  import opened Wrappers
  import opened Lists

  /** The properties of the form's value object, one per input, named after them. */
  datatype Field =
    | Name | Goal | Price | Audience | AwarenessLevel
    | Problems | Solution | Benefits | Usp
    | Testimonials | Features | Guarantee | Cta
    | Tone | References
    | Mainkeyword | Secondarykeywords | Location | Brand
    | PrimaryColor | SecondaryColor | AccentColor | BackgroundColor | TextColor

  /** The property name of a field in the form's value object, as its input's `name` carries it. */
  function Key(f: Field): string
  {
    match f
    case Name => "name"
    case Goal => "goal"
    case Price => "price"
    case Audience => "audience"
    case AwarenessLevel => "awarenessLevel"
    case Problems => "problems"
    case Solution => "solution"
    case Benefits => "benefits"
    case Usp => "usp"
    case Testimonials => "testimonials"
    case Features => "features"
    case Guarantee => "guarantee"
    case Cta => "cta"
    case Tone => "tone"
    case References => "references"
    case Mainkeyword => "mainkeyword"
    case Secondarykeywords => "secondarykeywords"
    case Location => "location"
    case Brand => "brand"
    case PrimaryColor => "primaryColor"
    case SecondaryColor => "secondaryColor"
    case AccentColor => "accentColor"
    case BackgroundColor => "backgroundColor"
    case TextColor => "textColor"
  }

  /** Different fields have different property names, so a name picks out at most one field. */
  lemma KeyInjective(f: Field, g: Field)
    ensures Key(f) == Key(g) <==> f == g
  {
  }

  /** The property names of a list of fields, in order. */
  function Keys(fs: seq<Field>): (r: seq<string>)
    ensures |r| == |fs|
    ensures forall i | 0 <= i < |fs| :: r[i] == Key(fs[i])
  {
    if fs == [] then [] else [Key(fs[0])] + Keys(fs[1..])
  }

  /** A name is among the property names of a list exactly when it is the name of a listed field. */
  lemma KeysMembers(key: string, fs: seq<Field>)
    ensures key in Keys(fs) <==> exists f | f in fs :: Key(f) == key
  {
    if key in Keys(fs) {
      var i :| 0 <= i < |fs| && Keys(fs)[i] == key;
      assert fs[i] in fs;
    }
  }

  /** A field's name is among the names of a list exactly when the field is listed. */
  lemma KeyAmong(f: Field, fs: seq<Field>)
    ensures Key(f) in Keys(fs) <==> f in fs
  {
    KeysMembers(Key(f), fs);
    forall g | g in fs && Key(g) == Key(f) ensures g == f {
      KeyInjective(f, g);
    }
  }

  /** No field is called "branding" or "seo". */
  lemma NoFieldNamedBrandingOrSeo(f: Field)
    ensures Key(f) != "branding" && Key(f) != "seo"
  {
  }

  /** The values of the form, keyed by field. */
  type Info = map<Field, string>

  /** Every field has a value. */
  predicate Complete(info: Info)
  {
    forall f: Field :: f in info
  }

  /** The value a field starts with: three select fields start on an option, every other field empty. */
  function InitialValue(f: Field): string
  {
    match f
    case Goal => "obtenir des leads"
    case AwarenessLevel => "inconscient du problème"
    case Tone => "professionnelle"
    case _ => ""
  }

  /** The form's first values. */
  function InitialInfo(): (info: Info)
    ensures Complete(info)
    ensures forall f :: info[f] == InitialValue(f)
  {
    map f: Field :: InitialValue(f)
  }

  /** The form after one input or select changed. */
  function WithField(info: Info, f: Field, value: string): (r: Info)
    ensures r.Keys == info.Keys + {f}
    ensures f in r && r[f] == value
    ensures forall g | g in info && g != f :: r[g] == info[g]
  {
    info[f := value]
  }

  // ---------------------------------------------------------------------
  // Steps
  // ---------------------------------------------------------------------

  datatype Section = Section(id: string, title: string)

  /** The six steps of the form, in order. */
  const Sections: seq<Section> := [
    Section("offre", "Informations sur l'offre"),
    Section("public", "Public cible"),
    Section("probleme", "Problème & solution"),
    Section("arguments", "Arguments & contenu"),
    Section("style", "Style & inspiration"),
    Section("seo", "SEO")
  ]

  /** The six steps have six different ids, so an id names one step. */
  lemma SectionIdsDistinct(i: int, j: int)
    requires 0 <= i < j < |Sections|
    ensures Sections[i].id != Sections[j].id
  {
  }

  /** The index of the last step. */
  const LastStep: int := |Sections| - 1

  /** `nextStep`: one step on, except from the last step. */
  function Next(step: int): int
  {
    if step < LastStep then step + 1 else step
  }

  /** `prevStep`: one step back, except from the first step. */
  function Prev(step: int): int
  {
    if step > 0 then step - 1 else step
  }

  /** Both moves keep the counter among the six steps. */
  lemma MovesStayInRange(step: int)
    requires 0 <= step <= LastStep
    ensures 0 <= Next(step) <= LastStep && 0 <= Prev(step) <= LastStep
  {
  }

  /** Moving is a no-op exactly at the ends: `Next` at the last step, `Prev` at the first. */
  lemma MovesStopAtEnds(step: int)
    requires 0 <= step <= LastStep
    ensures Next(step) == step <==> step == LastStep
    ensures Prev(step) == step <==> step == 0
  {
  }

  /** Forward then back returns to the step below the last one started from, and back then forward likewise. */
  lemma MovesUndo(step: int)
    requires 0 <= step <= LastStep
    ensures step < LastStep ==> Prev(Next(step)) == step
    ensures step > 0 ==> Next(Prev(step)) == step
  {
  }

  /** The inputs each step shows, in the order they appear on it. */
  function StepFields(step: int): (r: seq<Field>)
    ensures TextColor !in r
  {
    if step == 0 then [Name, Goal, Price]
    else if step == 1 then [Audience, AwarenessLevel]
    else if step == 2 then [Problems, Solution, Benefits, Usp]
    else if step == 3 then [Testimonials, Features, Guarantee, Cta]
    else if step == 4 then [Tone, References]
    else if step == 5 then LastStepInputs
    else []
  }

  /** The inputs of the last step: the keywords, the brand and four of the five colours. */
  const LastStepInputs: seq<Field> :=
    [Mainkeyword, Secondarykeywords, Location, Brand,
     PrimaryColor, SecondaryColor, AccentColor, BackgroundColor]

  // ---------------------------------------------------------------------
  // The required-field check
  // ---------------------------------------------------------------------

  /** The fields that must be filled in before submission, in the order they are checked (written as three groups of four). */
  const RequiredFields: seq<Field> :=
    [Name, Goal, Audience, AwarenessLevel] + [Problems, Solution, Benefits, Usp]
    + [Features, Cta, Tone, Mainkeyword]

  /** A field's value is truthy: it is present and not the empty string. */
  predicate Filled(info: Info, f: Field)
  {
    f in info && info[f] != ""
  }

  /** The fields the submit check looks at, as a test on one field. */
  predicate Required(f: Field)
  {
    match f
    case Name | Goal | Audience | AwarenessLevel | Problems | Solution
       | Benefits | Usp | Features | Cta | Tone | Mainkeyword => true
    case _ => false
  }

  /** The list of required fields holds exactly the fields the test accepts. */
  lemma RequiredFieldsListed(f: Field)
    ensures f in RequiredFields <==> Required(f)
  {
    if Required(f) {
      match f
      case Name => assert RequiredFields[0] == f;
      case Goal => assert RequiredFields[1] == f;
      case Audience => assert RequiredFields[2] == f;
      case AwarenessLevel => assert RequiredFields[3] == f;
      case Problems => assert RequiredFields[4] == f;
      case Solution => assert RequiredFields[5] == f;
      case Benefits => assert RequiredFields[6] == f;
      case Usp => assert RequiredFields[7] == f;
      case Features => assert RequiredFields[8] == f;
      case Cta => assert RequiredFields[9] == f;
      case Tone => assert RequiredFields[10] == f;
      case Mainkeyword => assert RequiredFields[11] == f;
    } else {
      forall i | 0 <= i < |RequiredFields| ensures RequiredFields[i] != f {
        assert Required(RequiredFields[i]);
      }
    }
  }

  /** The fields of `fields` whose value is falsy, in the order of `fields`. */
  function MissingAmong(info: Info, fields: seq<Field>): (r: seq<Field>)
    ensures |r| <= |fields|
  {
    if fields == [] then []
    else (if Filled(info, fields[0]) then [] else [fields[0]]) + MissingAmong(info, fields[1..])
  }

  /** `missing`: the required fields whose value is falsy, in the order of `RequiredFields`. */
  function Missing(info: Info): (r: seq<Field>)
    ensures |r| <= |RequiredFields|
  {
    MissingAmong(info, RequiredFields)
  }

  /** The walk over the fields is the list filter with the falsy test as its predicate. */
  lemma {:induction false} MissingAmongIsFilter(info: Info, fields: seq<Field>)
    ensures MissingAmong(info, fields) == Filter(fields, (f: Field) => !Filled(info, f))
  {
    if fields != [] {
      MissingAmongIsFilter(info, fields[1..]);
    }
  }

  /** A field is reported exactly when it is listed and not filled. */
  lemma {:induction false} MissingAmongMembers(info: Info, fields: seq<Field>, f: Field)
    ensures f in MissingAmong(info, fields) <==> f in fields && !Filled(info, f)
  {
    if fields != [] {
      MissingAmongMembers(info, fields[1..], f);
      assert fields == [fields[0]] + fields[1..];
    }
  }

  /** A field is missing exactly when it is required and not filled. */
  lemma MissingMembers(info: Info, f: Field)
    ensures f in Missing(info) <==> Required(f) && !Filled(info, f)
  {
    MissingAmongMembers(info, RequiredFields, f);
    RequiredFieldsListed(f);
  }

  /** Nothing is missing exactly when every required field is filled. */
  lemma NothingMissing(info: Info)
    ensures Missing(info) == [] <==> forall f | Required(f) :: Filled(info, f)
  {
    if Missing(info) != [] {
      var f := Missing(info)[0];
      MissingMembers(info, f);
    } else {
      forall f | Required(f) ensures Filled(info, f) {
        MissingMembers(info, f);
      }
    }
  }

  /** Optional fields are never reported missing, whatever their value. */
  lemma OptionalNeverMissing(info: Info, f: Field)
    requires f == Price || f == Testimonials || f == Guarantee || f == References
          || f == Secondarykeywords || f == Location || f == Brand || f == PrimaryColor
          || f == SecondaryColor || f == AccentColor || f == BackgroundColor || f == TextColor
    ensures f !in Missing(info)
  {
    MissingMembers(info, f);
  }

  /** Changing an optional field never changes what is missing. */
  lemma OptionalEditKeepsMissing(info: Info, f: Field, value: string)
    requires !Required(f)
    ensures Missing(WithField(info, f, value)) == Missing(info)
  {
    forall g | g in RequiredFields ensures Filled(info, g) == Filled(WithField(info, f, value), g) {
      RequiredFieldsListed(g);
    }
    MissingDependsOnFilled(info, WithField(info, f, value), RequiredFields);
  }

  /** Two forms that agree on whether each listed field is filled report the same fields. */
  lemma {:induction false} MissingDependsOnFilled(a: Info, b: Info, fields: seq<Field>)
    requires forall g | g in fields :: Filled(a, g) == Filled(b, g)
    ensures MissingAmong(a, fields) == MissingAmong(b, fields)
  {
    if fields != [] {
      assert fields[0] in fields;
      forall g | g in fields[1..] ensures Filled(a, g) == Filled(b, g) {
        assert g in fields;
      }
      MissingDependsOnFilled(a, b, fields[1..]);
    }
  }

  /** Reporting over a list split in two reports over each part, in order. */
  lemma {:induction false} MissingAmongAppend(info: Info, a: seq<Field>, b: seq<Field>)
    ensures MissingAmong(info, a + b) == MissingAmong(info, a) + MissingAmong(info, b)
  {
    if a == [] {
      assert a + b == b;
    } else {
      assert (a + b)[1..] == a[1..] + b;
      MissingAmongAppend(info, a[1..], b);
      var head := if Filled(info, a[0]) then [] else [a[0]];
      assert head + (MissingAmong(info, a[1..]) + MissingAmong(info, b))
          == (head + MissingAmong(info, a[1..])) + MissingAmong(info, b);
    }
  }

  /** Which required fields the untouched form has filled: exactly the three select fields. */
  lemma InitialFilled()
    ensures !Filled(InitialInfo(), Name) && Filled(InitialInfo(), Goal)
    ensures !Filled(InitialInfo(), Audience) && Filled(InitialInfo(), AwarenessLevel)
    ensures !Filled(InitialInfo(), Problems) && !Filled(InitialInfo(), Solution)
    ensures !Filled(InitialInfo(), Benefits) && !Filled(InitialInfo(), Usp)
    ensures !Filled(InitialInfo(), Features) && !Filled(InitialInfo(), Cta)
    ensures Filled(InitialInfo(), Tone) && !Filled(InitialInfo(), Mainkeyword)
  {
  }

  /** The untouched form reported over each group of four required fields. */
  lemma InitialBlocks()
    ensures MissingAmong(InitialInfo(), [Name, Goal, Audience, AwarenessLevel]) == [Name, Audience]
    ensures MissingAmong(InitialInfo(), [Problems, Solution, Benefits, Usp]) == [Problems, Solution, Benefits, Usp]
    ensures MissingAmong(InitialInfo(), [Features, Cta, Tone, Mainkeyword]) == [Features, Cta, Mainkeyword]
  {
    InitialFilled();
  }

  /** On the untouched form the fields without a default are missing; the three select fields are not. */
  lemma InitiallyMissing()
    ensures Missing(InitialInfo()) ==
      [Name, Audience, Problems, Solution, Benefits, Usp, Features, Cta, Mainkeyword]
  {
    var info := InitialInfo();
    var b1, b2, b3 := [Name, Goal, Audience, AwarenessLevel], [Problems, Solution, Benefits, Usp],
                      [Features, Cta, Tone, Mainkeyword];
    MissingAmongAppend(info, b1 + b2, b3);
    MissingAmongAppend(info, b1, b2);
    InitialBlocks();
  }

  // ---------------------------------------------------------------------
  // Classification tables
  // ---------------------------------------------------------------------

  /** `getSelectOptions`: the choices of the three select fields; no choices for any other name. */
  function SelectOptions(key: string): seq<string>
  {
    if key == "goal" then ["obtenir des leads", "vendre un produit", "réserver un appel"]
    else if key == "awarenessLevel" then
      ["inconscient du problème", "conscient du problème", "cherche une solution", "prêt à acheter"]
    else if key == "tone" then
      ["professionnelle", "engageante", "fun", "experte", "simple et directe"]
    else []
  }

  /** The select fields offer 3, 4 and 5 choices; every other field none. */
  lemma SelectOptionCounts(f: Field)
    ensures |SelectOptions(Key(f))| ==
      match f
      case Goal => 3
      case AwarenessLevel => 4
      case Tone => 5
      case _ => 0
  {
  }

  /** Each select field starts on one of its own choices. */
  lemma DefaultsAreOptions()
    ensures InitialInfo()[Goal] in SelectOptions(Key(Goal))
    ensures InitialInfo()[AwarenessLevel] in SelectOptions(Key(AwarenessLevel))
    ensures InitialInfo()[Tone] in SelectOptions(Key(Tone))
  {
    assert SelectOptions(Key(Goal))[0] == "obtenir des leads";
    assert SelectOptions(Key(AwarenessLevel))[0] == "inconscient du problème";
    assert SelectOptions(Key(Tone))[0] == "professionnelle";
  }

  /** The fields each test of the section lookup names, in the order it names them. */
  const OfferTest: seq<Field> := [Name, Goal, Price]
  const AudienceTest: seq<Field> := [Audience, AwarenessLevel]
  const ProblemTest: seq<Field> := [Problems, Solution, Benefits, Usp]
  const ArgumentTest: seq<Field> := [Features, Testimonials, Guarantee, Cta]
  const StyleTest: seq<Field> := [Tone, References]

  /** The names the last test of the lookup as written checks for. */
  const SeoTest: seq<string> := ["branding", "seo"]

  /**
   * `getSectionIdForField` as written: its last test names "branding" and
   * "seo", which are not field names, so no field is placed in "seo".
   */
  function SectionIdForField(key: string): (r: Option<string>)
    ensures r.Some? ==> exists s | 0 <= s < |Sections| :: Sections[s].id == r.value
  {
    assert Sections[0].id == "offre" && Sections[1].id == "public" && Sections[2].id == "probleme";
    assert Sections[3].id == "arguments" && Sections[4].id == "style" && Sections[5].id == "seo";
    if key in Keys(OfferTest) then Some("offre")
    else if key in Keys(AudienceTest) then Some("public")
    else if key in Keys(ProblemTest) then Some("probleme")
    else if key in Keys(ArgumentTest) then Some("arguments")
    else if key in Keys(StyleTest) then Some("style")
    else if key in SeoTest then Some("seo")
    else None
  }

  /**
   * The section lookup corrected: the inputs of the last step go to its
   * section, and every other name is looked up as before, "branding" and
   * "seo" included.
   */
  function FixedSectionIdForField(key: string): (r: Option<string>)
    ensures r.Some? ==> exists s | 0 <= s < |Sections| :: Sections[s].id == r.value
  {
    assert Sections[LastStep].id == "seo";
    if key in Keys(LastStepInputs) then Some("seo") else SectionIdForField(key)
  }

  /** Each test of the lookup as written, read on the name of a field, holds exactly when the field is listed. */
  lemma KeyTests(f: Field)
    ensures Key(f) in Keys(OfferTest) <==> f in OfferTest
    ensures Key(f) in Keys(AudienceTest) <==> f in AudienceTest
    ensures Key(f) in Keys(ProblemTest) <==> f in ProblemTest
    ensures Key(f) in Keys(ArgumentTest) <==> f in ArgumentTest
    ensures Key(f) in Keys(StyleTest) <==> f in StyleTest
    ensures Key(f) !in SeoTest
  {
    KeyAmong(f, OfferTest);
    KeyAmong(f, AudienceTest);
    KeyAmong(f, ProblemTest);
    KeyAmong(f, ArgumentTest);
    KeyAmong(f, StyleTest);
    NoFieldNamedBrandingOrSeo(f);
  }

  /** The fields each of the first five steps shows are exactly those one test lists, and no earlier test. */
  lemma StepFieldsTested(step: int, f: Field)
    requires 0 <= step < LastStep && f in StepFields(step)
    ensures step == 0 <==> f in OfferTest
    ensures step == 1 <==> f in AudienceTest
    ensures step == 2 <==> f in ProblemTest
    ensures step == 3 <==> f in ArgumentTest
    ensures step == 4 <==> f in StyleTest
  {
  }

  /** The inputs of the last step are listed by none of the first five tests. */
  lemma LastStepUntested(f: Field)
    requires f in LastStepInputs
    ensures f !in OfferTest && f !in AudienceTest && f !in ProblemTest
    ensures f !in ArgumentTest && f !in StyleTest
  {
  }

  /** The lookup as written, read on the name of a field: the first test that lists the field decides. */
  lemma SectionOfField(f: Field)
    ensures SectionIdForField(Key(f)) ==
      if f in OfferTest then Some(Sections[0].id)
      else if f in AudienceTest then Some(Sections[1].id)
      else if f in ProblemTest then Some(Sections[2].id)
      else if f in ArgumentTest then Some(Sections[3].id)
      else if f in StyleTest then Some(Sections[4].id)
      else None
  {
    KeyTests(f);
  }

  /** The corrected lookup, read on the name of a field: the first test that lists the field decides. */
  lemma FixedSectionOfField(f: Field)
    ensures FixedSectionIdForField(Key(f)) ==
      if f in OfferTest then Some(Sections[0].id)
      else if f in AudienceTest then Some(Sections[1].id)
      else if f in ProblemTest then Some(Sections[2].id)
      else if f in ArgumentTest then Some(Sections[3].id)
      else if f in StyleTest then Some(Sections[4].id)
      else if f in LastStepInputs then Some(Sections[5].id)
      else None
  {
    KeyAmong(f, LastStepInputs);
    SectionOfField(f);
    if f in LastStepInputs {
      LastStepUntested(f);
    }
  }

  /**
   * The inputs of the last step, the required main keyword among them, get no
   * section at all; only the two names of the last test, which no field has,
   * reach "seo".
   */
  lemma LastStepFieldsHaveNoSection()
    ensures Mainkeyword in StepFields(LastStep) && Required(Mainkeyword)
    ensures forall f | f in StepFields(LastStep) :: SectionIdForField(Key(f)) == None
    ensures SectionIdForField("seo") == Some(Sections[LastStep].id)
  {
    forall f | f in StepFields(LastStep) ensures SectionIdForField(Key(f)) == None {
      SectionOfField(f);
      LastStepUntested(f);
    }
    SeoIsNoFieldName();
  }

  /** "seo" is the name of no field, so the first five tests let it through. */
  lemma SeoIsNoFieldName()
    ensures forall fs: seq<Field> :: "seo" !in Keys(fs)
  {
    forall fs: seq<Field> ensures "seo" !in Keys(fs) {
      KeysMembers("seo", fs);
      forall f: Field ensures Key(f) != "seo" {
        NoFieldNamedBrandingOrSeo(f);
      }
    }
  }

  /** On the first five steps the lookup as written gives each shown field its step's section. */
  lemma LookupBeforeLastStep(step: int, f: Field)
    requires 0 <= step < LastStep && f in StepFields(step)
    ensures SectionIdForField(Key(f)) == Some(Sections[step].id)
  {
    SectionOfField(f);
    StepFieldsTested(step, f);
  }

  /** On the first five steps the fixed lookup gives each shown field its step's section. */
  lemma FixedLookupBeforeLastStep(step: int, f: Field)
    requires 0 <= step < LastStep && f in StepFields(step)
    ensures FixedSectionIdForField(Key(f)) == Some(Sections[step].id)
  {
    FixedSectionOfField(f);
    StepFieldsTested(step, f);
  }

  /** On the last step the fixed lookup gives each shown field the "seo" section. */
  lemma FixedLookupOnLastStep(f: Field)
    requires f in StepFields(LastStep)
    ensures FixedSectionIdForField(Key(f)) == Some(Sections[LastStep].id)
  {
    FixedSectionOfField(f);
    LastStepUntested(f);
  }

  /** Every field shown on a step is given the id of that step's section by the fixed lookup. */
  lemma FixedSectionMatchesStep(step: int, f: Field)
    requires 0 <= step < |Sections| && f in StepFields(step)
    ensures FixedSectionIdForField(Key(f)) == Some(Sections[step].id)
  {
    if step < LastStep {
      FixedLookupBeforeLastStep(step, f);
    } else {
      FixedLookupOnLastStep(f);
    }
  }

  /** The two lookups agree on every field shown before the last step. */
  lemma LookupsAgreeBeforeLastStep(step: int, f: Field)
    requires 0 <= step < LastStep && f in StepFields(step)
    ensures SectionIdForField(Key(f)) == FixedSectionIdForField(Key(f))
  {
    LookupBeforeLastStep(step, f);
    FixedLookupBeforeLastStep(step, f);
  }

  /**
   * The correction is confined to the last step: on every name other than the
   * last step's inputs, "branding" and "seo" included, the two lookups agree.
   */
  lemma FixedChangesOnlyLastStep(key: string)
    requires forall f | f in LastStepInputs :: key != Key(f)
    ensures FixedSectionIdForField(key) == SectionIdForField(key)
  {
    KeysMembers(key, LastStepInputs);
    assert key !in Keys(LastStepInputs);
  }

  // ---------------------------------------------------------------------
  // Submission and the template step
  // ---------------------------------------------------------------------

  /** A parsed JSON value; numbers are held as integers. */
  datatype Json =
    | JNull
    | JBool(b: bool)
    | JNumber(n: int)
    | JString(s: string)
    | JArray(items: seq<Json>)
    | JObject(members: seq<(string, Json)>)

  /** JavaScript truthiness of a parsed value: null, false, 0 and "" are falsy. */
  predicate Truthy(j: Json)
  {
    match j
    case JNull => false
    case JBool(b) => b
    case JNumber(n) => n != 0
    case JString(s) => s != ""
    case _ => true
  }

  datatype SubmitOutcome =
    | Blocked(missing: seq<Field>)   // required fields empty: nothing was sent
    | Failed                         // a request failed, no prompt came back, or the reply did not parse
    | Generated                      // prompt and JSON stored, template step shown

  class ProductForm {
    var info: Info
    var step: int
    var generatedPrompt: string
    var generatedJson: Json
    var showTemplateSelector: bool
    var selectedTemplate: Option<string>

    /** Every field has a value and the counter names one of the six steps. */
    predicate Valid()
      reads this
    {
      Complete(info) && 0 <= step <= LastStep
    }

    /** The untouched form at its first step. */
    constructor ()
      ensures Valid()
      ensures info == InitialInfo() && step == 0
      ensures generatedPrompt == "" && generatedJson == JNull
      ensures !showTemplateSelector && selectedTemplate == None
    {
      info := InitialInfo();
      step := 0;
      generatedPrompt := "";
      generatedJson := JNull;
      showTemplateSelector := false;
      selectedTemplate := None;
    }

    // The controls of the form, shown while the template step is hidden.

    /** An input or select changed: only that field takes the new value. */
    method SetField(f: Field, value: string)
      requires Valid() && !showTemplateSelector
      modifies this
      ensures Valid()
      ensures info == WithField(old(info), f, value)
      ensures step == old(step) && generatedPrompt == old(generatedPrompt)
      ensures generatedJson == old(generatedJson) && showTemplateSelector == old(showTemplateSelector)
      ensures selectedTemplate == old(selectedTemplate)
    {
      info := info[f := value];
    }

    method NextStep()
      requires Valid() && !showTemplateSelector
      modifies this`step
      ensures Valid()
      ensures step == Next(old(step))
    {
      if step < |Sections| - 1 {
        step := step + 1;
      }
    }

    method PrevStep()
      requires Valid() && !showTemplateSelector
      modifies this`step
      ensures Valid()
      ensures step == Prev(old(step))
    {
      if step > 0 {
        step := step - 1;
      }
    }

    /** Clicking the dot of a step in the progress indicator. */
    method GoToStep(i: int)
      requires Valid() && !showTemplateSelector && 0 <= i < |Sections|
      modifies this`step
      ensures Valid() && step == i
    {
      step := i;
    }

    /**
     * Submitting, from the button of the last step. With a required field empty nothing is sent and nothing
     * changes. Otherwise `serverPrompt` is the prompt the server composed from
     * the values and `reply` the model's answer parsed as JSON (None when a
     * request failed or the text did not parse); both must be there for the
     * results to be stored and the template step shown.
     */
    method Submit(serverPrompt: string, reply: Option<Json>) returns (outcome: SubmitOutcome)
      requires Valid() && !showTemplateSelector && step == LastStep
      modifies this
      ensures Valid()
      ensures outcome.Blocked? <==> Missing(old(info)) != []
      ensures outcome.Blocked? ==> outcome.missing == Missing(old(info))
      ensures outcome.Generated? <==> Missing(old(info)) == [] && serverPrompt != "" && reply.Some?
      ensures outcome.Generated? ==>
        generatedPrompt == serverPrompt && generatedJson == reply.value && showTemplateSelector
      ensures !outcome.Generated? ==>
        generatedPrompt == old(generatedPrompt) && generatedJson == old(generatedJson)
        && showTemplateSelector == old(showTemplateSelector)
      ensures info == old(info) && step == old(step) && selectedTemplate == old(selectedTemplate)
    {
      var missing := Missing(info);
      if |missing| > 0 {
        return Blocked(missing);
      }
      if serverPrompt == "" || reply == None {
        return Failed;
      }
      generatedPrompt := serverPrompt;
      generatedJson := reply.value;
      showTemplateSelector := true;
      outcome := Generated;
    }

    // The controls of the template step, shown once a prompt was generated.

    /** A template was chosen from the list. */
    method SelectTemplate(id: string)
      requires Valid() && showTemplateSelector
      modifies this`selectedTemplate
      ensures Valid() && selectedTemplate == Some(id)
    {
      selectedTemplate := Some(id);
    }

    /** Text typed into the JSON box replaces the value only when it parses. */
    method EditJson(parsed: Option<Json>)
      requires Valid() && showTemplateSelector
      modifies this`generatedJson
      ensures Valid()
      ensures generatedJson == if parsed.Some? then parsed.value else old(generatedJson)
    {
      if parsed.Some? {
        generatedJson := parsed.value;
      }
    }

    /** The back button of the template step returns to the form. */
    method CloseTemplateSelector()
      requires Valid() && showTemplateSelector
      modifies this`showTemplateSelector
      ensures Valid() && !showTemplateSelector
    {
      showTemplateSelector := false;
    }

    /**
     * Applying the JSON to a template: refused unless a template is selected
     * and the stored JSON is truthy; otherwise the template id and the JSON
     * are what gets handed on to the template page.
     */
    method ApplyJsonToTemplate() returns (r: Option<(string, Json)>)
      requires Valid() && showTemplateSelector
      ensures r.None? <==> selectedTemplate.None? || !Truthy(generatedJson)
      ensures r.Some? ==> r.value == (selectedTemplate.value, generatedJson)
    {
      if selectedTemplate.None? || !Truthy(generatedJson) {
        return None;
      }
      r := Some((selectedTemplate.value, generatedJson));
    }
  }
}
