/**
 * The two collaborators the use cases depend on, as values: a sheet repository and a
 * form service are each given by the answers their operations return.
 */
module Ports {

  import opened Options
  import opened Domain

  /** `get_quiz_metadata(week)` and `get_questions(week, language)`. */
  datatype SheetRepository = SheetRepository(
    getQuizMetadata: int -> Option<QuizMetadata>,
    getQuestions: (int, Language) -> seq<Question>)

  /** `create_form(quiz)`: the URL of the form created for the quiz. */
  datatype FormService = FormService(createForm: Quiz -> string)
}
