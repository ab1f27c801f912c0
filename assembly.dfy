/**
 * The algorithm the preview and create use cases share: which languages to process,
 * and the quiz each language with questions yields, in processing order.
 */
module QuizAssembly {

  import opened Options
  import opened Domain
  import opened DescriptionOverlay
  import opened Ports

  /** The requested language alone, or English then Tamil when none was requested. */
  function LanguagesToProcess(language: Option<Language>): (r: seq<Language>)
    ensures 1 <= |r| <= 2
    ensures forall i, j :: 0 <= i < j < |r| ==> r[i] != r[j]
    ensures language.Some? ==> r == [language.value]
    ensures language.None? ==> English in r && Tamil in r && r[0] == English
  {
    if language.Some? then [language.value] else [English, Tamil]
  }

  /** The quiz built for `lang`: the week's metadata, the fetched questions and the loaded override. */
  function QuizFor(repo: SheetRepository, files: Files, week: int, md: QuizMetadata, lang: Language): Quiz {
    Quiz(md, lang, repo.getQuestions(week, lang), CustomDescription(lang, md, files))
  }

  /** The quizzes produced for `langs`, in processing order. */
  function PlannedQuizzes(repo: SheetRepository, files: Files, week: int, md: QuizMetadata, langs: seq<Language>): seq<Quiz> {
    if langs == [] then []
    else
      var n := |langs| - 1;
      var earlier := PlannedQuizzes(repo, files, week, md, langs[..n]);
      if repo.getQuestions(week, langs[n]) != [] then earlier + [QuizFor(repo, files, week, md, langs[n])] else earlier
  }

  /** The last language contributes its quiz after the earlier ones' when it has questions. */
  lemma PlannedStep(repo: SheetRepository, files: Files, week: int, md: QuizMetadata, langs: seq<Language>)
    requires langs != []
    ensures var n := |langs| - 1;
      PlannedQuizzes(repo, files, week, md, langs) ==
      PlannedQuizzes(repo, files, week, md, langs[..n]) +
      if repo.getQuestions(week, langs[n]) != [] then [QuizFor(repo, files, week, md, langs[n])] else []
  {
  }

  /**
   * Every planned quiz belongs to a processed language and has questions: it carries the
   * shared metadata, its language's fetched questions unchanged and its language's
   * override; and there are never more quizzes than languages.
   */
  lemma {:induction false} PlannedQuizzesSound(repo: SheetRepository, files: Files, week: int, md: QuizMetadata, langs: seq<Language>)
    ensures var r := PlannedQuizzes(repo, files, week, md, langs);
      && |r| <= |langs|
      && (forall i :: 0 <= i < |r| ==>
            r[i] == QuizFor(repo, files, week, md, r[i].language) && r[i].questions != [] && r[i].language in langs)
  {
    if langs != [] {
      var n := |langs| - 1;
      PlannedQuizzesSound(repo, files, week, md, langs[..n]);
      var earlier := PlannedQuizzes(repo, files, week, md, langs[..n]);
      var r := PlannedQuizzes(repo, files, week, md, langs);
      forall i | 0 <= i < |earlier|
        ensures earlier[i].language in langs
      {
        var l := earlier[i].language;
        var j :| 0 <= j < n && langs[..n][j] == l;
        assert langs[j] == l;
      }
      PlannedStep(repo, files, week, md, langs);
    }
  }

  /** Languages processed at most once each yield at most one quiz each. */
  lemma {:induction false} PlannedLanguagesDistinct(repo: SheetRepository, files: Files, week: int, md: QuizMetadata,
                                                    langs: seq<Language>)
    requires forall i, j :: 0 <= i < j < |langs| ==> langs[i] != langs[j]
    ensures var r := PlannedQuizzes(repo, files, week, md, langs);
      forall i, j :: 0 <= i < j < |r| ==> r[i].language != r[j].language
  {
    if langs != [] {
      var n := |langs| - 1;
      PlannedLanguagesDistinct(repo, files, week, md, langs[..n]);
      PlannedQuizzesSound(repo, files, week, md, langs[..n]);
      PlannedStep(repo, files, week, md, langs);
      var earlier := PlannedQuizzes(repo, files, week, md, langs[..n]);
      forall i | 0 <= i < |earlier|
        ensures earlier[i].language != langs[n]
      {
        var j :| 0 <= j < n && langs[..n][j] == earlier[i].language;
        assert langs[j] == earlier[i].language;
      }
    }
  }

  /** Every processed language with a non-empty question list gets a quiz. */
  lemma {:induction false} PlannedQuizzesComplete(repo: SheetRepository, files: Files, week: int, md: QuizMetadata,
                                                  langs: seq<Language>, lang: Language)
    requires lang in langs && repo.getQuestions(week, lang) != []
    ensures exists i :: 0 <= i < |PlannedQuizzes(repo, files, week, md, langs)| &&
                        PlannedQuizzes(repo, files, week, md, langs)[i].language == lang
  {
    var n := |langs| - 1;
    var earlier := PlannedQuizzes(repo, files, week, md, langs[..n]);
    var r := PlannedQuizzes(repo, files, week, md, langs);
    PlannedStep(repo, files, week, md, langs);
    if langs[n] == lang {
      assert r[|earlier|].language == lang;
    } else {
      assert lang in langs[..n] by {
        var j :| 0 <= j < |langs| && langs[j] == lang;
        assert j < n && langs[..n][j] == lang;
      }
      PlannedQuizzesComplete(repo, files, week, md, langs[..n], lang);
      var i :| 0 <= i < |earlier| && earlier[i].language == lang;
      assert r[i] == earlier[i];
    }
  }

  /**
   * With no language requested, the result is English's quiz (if English has questions)
   * followed by Tamil's (if Tamil has questions).
   */
  lemma PlannedForBothLanguages(repo: SheetRepository, files: Files, week: int, md: QuizMetadata)
    ensures PlannedQuizzes(repo, files, week, md, LanguagesToProcess(None)) ==
      (if repo.getQuestions(week, English) != [] then [QuizFor(repo, files, week, md, English)] else []) +
      (if repo.getQuestions(week, Tamil) != [] then [QuizFor(repo, files, week, md, Tamil)] else [])
  {
    var langs := LanguagesToProcess(None);
    assert langs[..1] == [English] && [English][..0] == [];
    assert PlannedQuizzes(repo, files, week, md, [English][..0]) == [];
    var en := PlannedQuizzes(repo, files, week, md, [English]);
    assert en == if repo.getQuestions(week, English) != [] then [QuizFor(repo, files, week, md, English)] else [];
    assert PlannedQuizzes(repo, files, week, md, langs) ==
      if repo.getQuestions(week, Tamil) != [] then en + [QuizFor(repo, files, week, md, Tamil)] else en;
  }

  /** With one language requested, the result is that language's quiz, or nothing when it has no questions. */
  lemma PlannedForOneLanguage(repo: SheetRepository, files: Files, week: int, md: QuizMetadata, lang: Language)
    ensures PlannedQuizzes(repo, files, week, md, LanguagesToProcess(Some(lang))) ==
      if repo.getQuestions(week, lang) != [] then [QuizFor(repo, files, week, md, lang)] else []
  {
    assert LanguagesToProcess(Some(lang))[..0] == [];
  }
}
