/** The preview use case: assemble each language's quiz for read-only display. */
module PreviewQuiz {

  import opened Options
  import opened Domain
  import opened DescriptionOverlay
  import opened Ports
  import opened QuizAssembly

  datatype PreviewResult = PreviewResult(metadata: QuizMetadata, quizzes: seq<Quiz>)

  /**
   * `PreviewQuizUseCase.execute`. Besides the result it reports the languages whose
   * questions were fetched, in fetch order.
   */
  method Execute(repo: SheetRepository, files: Files, week: int, language: Option<Language>)
    returns (result: Option<PreviewResult>, fetched: seq<Language>)
    ensures repo.getQuizMetadata(week).None? ==> result == None && fetched == []
    ensures repo.getQuizMetadata(week).Some? ==> fetched == LanguagesToProcess(language)
    ensures result.Some? <==>
      repo.getQuizMetadata(week).Some? &&
      PlannedQuizzes(repo, files, week, repo.getQuizMetadata(week).value, LanguagesToProcess(language)) != []
    ensures result.Some? ==>
      result.value == PreviewResult(repo.getQuizMetadata(week).value,
        PlannedQuizzes(repo, files, week, repo.getQuizMetadata(week).value, LanguagesToProcess(language)))
  {
    var metadata := repo.getQuizMetadata(week);
    if metadata.None? {
      return None, [];
    }
    var md := metadata.value;
    var languages := LanguagesToProcess(language);
    var quizzes: seq<Quiz> := [];
    fetched := [];
    var k := 0;
    while k < |languages|
      invariant 0 <= k <= |languages|
      invariant fetched == languages[..k]
      invariant quizzes == PlannedQuizzes(repo, files, week, md, languages[..k])
    {
      var lang := languages[k];
      var questions := repo.getQuestions(week, lang);
      fetched := fetched + [lang];
      assert languages[..k + 1][..k] == languages[..k];
      assert PlannedQuizzes(repo, files, week, md, languages[..k + 1]) ==
        if questions != [] then quizzes + [QuizFor(repo, files, week, md, lang)] else quizzes;
      if questions != [] {
        var customDesc := CustomDescription(lang, md, files);
        quizzes := quizzes + [Quiz(md, lang, questions, customDesc)];
      }
      k := k + 1;
    }
    assert languages[..k] == languages;
    if quizzes == [] {
      return None, fetched;
    }
    return Some(PreviewResult(md, quizzes)), fetched;
  }
}
