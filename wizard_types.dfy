/** The wizard's configuration and answer types of `src/types/wizard.ts`. */
module WizardTypes {

  import opened Wrappers
  import Text

  /** A `WizardOption`'s `value`: a string or a number (the numbers the wizard uses
      are whole). */
  datatype OptionValue = TextValue(s: string) | NumberValue(n: int)

  datatype WizardOption = WizardOption(
    id: string,
    labelKey: string,
    value: OptionValue,
    icon: Option<string>,
    imageSrc: Option<string>)

  datatype QuestionType = CardSelection | ImageGrid | Slider | SearchList | Rating | TextInput

  /** `StepConfig`: the three typed shapes and the free-form record the text inputs use. */
  datatype StepConfig =
    | SliderConfig(min: real, max: real, step: Option<real>, unit: Option<string>)
    | RatingConfig(ratingMax: int, ratingIcon: Option<string>)
    | SearchListConfig(searchPlaceholder: Option<string>, multiSelect: Option<bool>, maxSelections: Option<int>)
    | TextConfig(placeholder: string, inputType: string)

  datatype WizardStep = WizardStep(
    id: string,
    question: string,
    questionType: QuestionType,
    options: Option<seq<WizardOption>>,
    config: Option<StepConfig>)

  datatype WizardPhase = WizardPhase(id: string, title: string, description: Option<string>, steps: seq<WizardStep>)

  datatype WizardConfig = WizardConfig(id: string, name: string, phases: seq<WizardPhase>)

  /** One answer of `WizardState`: a string, a number or a list of strings. */
  datatype Answer = AnswerText(s: string) | AnswerNumber(n: real) | AnswerList(items: seq<string>)

  /** `WizardState`: the answers keyed by step id; a missing key is `undefined`. */
  type WizardState = map<string, Answer>

  /** `optionValue.toString()` */
  function OptionText(v: OptionValue): string {
    match v
    case TextValue(s) => s
    case NumberValue(n) => Text.IntText(n)
  }
}
