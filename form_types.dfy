/** The form record every component shares: nine text fields and two
    flags, all always present. */
module FormTypes {

  datatype FormData = FormData(
    subject: string,
    grade: string,
    questionType: string,
    quantity: string,
    difficulty: string,
    topic: string,
    includeAnswers: bool,
    useLatex: bool,
    additionalRequirements: string,
    exerciseType: string,
    tone: string)

  /** The `name` attribute of a text input, textarea or select. */
  datatype TextField =
    | Subject | Grade | QuestionType | Quantity | Difficulty | Topic
    | AdditionalRequirements | ExerciseType | Tone

  /** The `name` attribute of a checkbox. */
  datatype FlagField = IncludeAnswers | UseLatex

  /** `formData[name]` for a text field. */
  function TextOf(f: FormData, name: TextField): string {
    match name
    case Subject => f.subject
    case Grade => f.grade
    case QuestionType => f.questionType
    case Quantity => f.quantity
    case Difficulty => f.difficulty
    case Topic => f.topic
    case AdditionalRequirements => f.additionalRequirements
    case ExerciseType => f.exerciseType
    case Tone => f.tone
  }

  /** `formData[name]` for a flag. */
  function FlagOf(f: FormData, name: FlagField): bool {
    match name
    case IncludeAnswers => f.includeAnswers
    case UseLatex => f.useLatex
  }
}
