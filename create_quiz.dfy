/** The create use case: assemble each language's quiz and create a form for it. */
module CreateQuiz {

  import opened Options
  import opened Domain
  import opened DescriptionOverlay
  import opened Ports
  import opened QuizAssembly

  /** The week's metadata and one (language, form URL) pair per created form. */
  datatype CreateQuizResult = CreateQuizResult(metadata: QuizMetadata, createdForms: seq<(Language, string)>)

  /**
   * `CreateQuizUseCase.execute`. Besides the result it reports the languages whose
   * questions were fetched and the quizzes passed to `create_form`, each in call order.
   */
  method Execute(repo: SheetRepository, forms: FormService, files: Files, week: int, language: Option<Language>)
    returns (result: Option<CreateQuizResult>, fetched: seq<Language>, submitted: seq<Quiz>)
    ensures repo.getQuizMetadata(week).None? ==> result == None && fetched == [] && submitted == []
    ensures repo.getQuizMetadata(week).Some? ==>
      fetched == LanguagesToProcess(language) &&
      submitted == PlannedQuizzes(repo, files, week, repo.getQuizMetadata(week).value, LanguagesToProcess(language))
    ensures forall i, j :: 0 <= i < j < |submitted| ==> submitted[i].language != submitted[j].language
    ensures result.Some? <==> submitted != []
    ensures result.Some? ==>
      result.value.metadata == repo.getQuizMetadata(week).value &&
      |result.value.createdForms| == |submitted| &&
      forall i :: 0 <= i < |submitted| ==>
        result.value.createdForms[i] == (submitted[i].language, forms.createForm(submitted[i]))
  {
    var metadata := repo.getQuizMetadata(week);
    if metadata.None? {
      return None, [], [];
    }
    var md := metadata.value;
    var languages := LanguagesToProcess(language);
    var createdForms: seq<(Language, string)> := [];
    fetched, submitted := [], [];
    var k := 0;
    while k < |languages|
      invariant 0 <= k <= |languages|
      invariant fetched == languages[..k]
      invariant submitted == PlannedQuizzes(repo, files, week, md, languages[..k])
      invariant |createdForms| == |submitted|
      invariant forall i :: 0 <= i < |submitted| ==> createdForms[i] == (submitted[i].language, forms.createForm(submitted[i]))
    {
      var lang := languages[k];
      var questions := repo.getQuestions(week, lang);
      fetched := fetched + [lang];
      assert languages[..k + 1][..k] == languages[..k];
      assert PlannedQuizzes(repo, files, week, md, languages[..k + 1]) ==
        if questions != [] then submitted + [QuizFor(repo, files, week, md, lang)] else submitted;
      if questions != [] {
        var customDesc := CustomDescription(lang, md, files);
        var quiz := Quiz(md, lang, questions, customDesc);
        var formUrl := forms.createForm(quiz);
        submitted := submitted + [quiz];
        createdForms := createdForms + [(lang, formUrl)];
      }
      k := k + 1;
    }
    assert languages[..k] == languages;
    PlannedLanguagesDistinct(repo, files, week, md, languages);
    if createdForms == [] {
      return None, fetched, submitted;
    }
    return Some(CreateQuizResult(md, createdForms)), fetched, submitted;
  }
}
