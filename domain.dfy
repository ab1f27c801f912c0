/**
 * The quiz domain values: languages, questions, per-week metadata and the
 * per-language quiz, with the strings derived from them (display title, answer
 * key, form title and description).
 */
module Domain {

  import opened Options
  import opened Strings

  /** The two languages a quiz is produced in; `Code` is the enum's string value. */
  datatype Language = English | Tamil {

    function Code(): (r: string)
      ensures |r| == 2 && LanguageFromCode(r) == Some(this)
    {
      match this
      case English => "EN"
      case Tamil => "TA"
    }
  }

  /** `Language(value)`: the enum member with that value, if any. */
  function LanguageFromCode(code: string): Option<Language> {
    if code == "EN" then Some(English)
    else if code == "TA" then Some(Tamil)
    else None
  }

  /** The enum has exactly two values, "EN" and "TA", and each value names one member. */
  lemma LanguageCodes(code: string, lang: Language)
    ensures LanguageFromCode(code).Some? <==> code == "EN" || code == "TA"
    ensures LanguageFromCode(code) == Some(lang) <==> lang.Code() == code
  {
  }

  /** Points awarded per question unless configured otherwise. */
  const DefaultPoints: int := 2

  /** Quiz year unless configured otherwise. */
  const DefaultYear: int := 2026

  datatype Question = Question(
    id: string,
    week: int,
    text: string,
    answer: string,
    scripture: string,
    points: int := DefaultPoints)

  datatype QuizMetadata = QuizMetadata(week: int, dates: string, portion: string, year: int := DefaultYear)

  /** A quiz for one language of one week; callers build it only with questions. */
  datatype Quiz = Quiz(
    metadata: QuizMetadata,
    language: Language,
    questions: seq<Question>,
    customDescription: Option<string> := None)

  /** Omitted points and year take the defaults 2 and 2026. */
  lemma Defaults(id: string, week: int, text: string, answer: string, scripture: string, dates: string, portion: string)
    ensures Question(id, week, text, answer, scripture).points == 2
    ensures QuizMetadata(week, dates, portion).year == 2026
  {
  }

  /** The item title shown on the form: "{id}. {text}". */
  function FormattedTitle(q: Question): (r: string)
    ensures |r| == |q.id| + 2 + |q.text|
    ensures r[..|q.id|] == q.id && r[|q.id|..|q.id| + 2] == ". " && r[|q.id| + 2..] == q.text
  {
    q.id + ". " + q.text
  }

  /** The grading string the form compares answers against: "{scripture}, {answer}". */
  function FormattedAnswerKey(q: Question): (r: string)
    ensures |r| == |q.scripture| + 2 + |q.answer|
    ensures r[..|q.scripture|] == q.scripture && r[|q.scripture|..|q.scripture| + 2] == ", " && r[|q.scripture| + 2..] == q.answer
  {
    q.scripture + ", " + q.answer
  }

  /** The display title splits back into id and text at the first ". " when the id has none. */
  lemma FormattedTitleSplits(q: Question)
    requires forall j :: !OccursAt(q.id, ". ", j)
    ensures SplitFirst(FormattedTitle(q), ". ") == Some((q.id, q.text))
  {
    SplitFirstOfJoin(q.id, ". ", q.text);
  }

  /** The answer key splits back into scripture and answer at the first ", " when the scripture has none. */
  lemma FormattedAnswerKeySplits(q: Question)
    requires forall j :: !OccursAt(q.scripture, ", ", j)
    ensures SplitFirst(FormattedAnswerKey(q), ", ") == Some((q.scripture, q.answer))
  {
    SplitFirstOfJoin(q.scripture, ", ", q.answer);
  }

  lemma FormattedAnswerKeyExample(q: Question)
    requires q.scripture == "Gen 2:8" && q.answer == "East"
    ensures FormattedAnswerKey(q) == "Gen 2:8, East"
  {
  }

  function LanguageName(lang: Language): string {
    if lang == English then "English" else "Tamil"
  }

  /** Neither a single quote nor a backslash occurs in `s`. */
  predicate QuoteFree(s: string) {
    forall i :: 0 <= i < |s| ==> s[i] != '\'' && s[i] != '\\'
  }

  lemma QuoteFreeConcat(a: string, b: string)
    requires QuoteFree(a) && QuoteFree(b)
    ensures QuoteFree(a + b)
  {
    forall i | 0 <= i < |a + b| ensures (a + b)[i] != '\'' && (a + b)[i] != '\\' {
      if i >= |a| {
        assert (a + b)[i] == b[i - |a|];
      }
    }
  }

  /** "Week {week} - {English|Tamil} Bible Quiz | {year}"; no quote or backslash occurs in it. */
  function TitleFor(week: int, lang: Language, year: int): (r: string)
    ensures QuoteFree(r)
  {
    var w, y, n := IntToString(week), IntToString(year), LanguageName(lang);
    assert QuoteFree(w) && QuoteFree(y) && QuoteFree(n);
    QuoteFreeConcat("Week ", w);
    QuoteFreeConcat("Week " + w, " - ");
    QuoteFreeConcat("Week " + w + " - ", n);
    QuoteFreeConcat("Week " + w + " - " + n, " Bible Quiz | ");
    QuoteFreeConcat("Week " + w + " - " + n + " Bible Quiz | ", y);
    "Week " + w + " - " + n + " Bible Quiz | " + y
  }

  /** The form title of a quiz; it never contains a quote or a backslash. */
  function QuizTitle(quiz: Quiz): (r: string)
    ensures QuoteFree(r)
  {
    TitleFor(quiz.metadata.week, quiz.language, quiz.metadata.year)
  }

  lemma QuizTitleExample(quiz: Quiz)
    requires quiz.metadata.week == 3 && quiz.metadata.year == 2026 && quiz.language == English
    ensures QuizTitle(quiz) == "Week 3 - English Bible Quiz | 2026"
  {
    var w, y := IntToString(3), IntToString(2026);
    assert w == "3" && y == "2026";
    assert "Week " + w + " - " + "English" + " Bible Quiz | " + y == "Week 3 - English Bible Quiz | 2026";
  }

  /** The text after "Week " in a title: the week's digits, then " -", then the rest. */
  lemma TitleAfterWeekWord(week: int, lang: Language, year: int)
    ensures TitleFor(week, lang, year)[5..] ==
            IntToString(week) + " -" + (" " + LanguageName(lang) + " Bible Quiz | " + IntToString(year))
  {
    var w := IntToString(week);
    var rest := " " + LanguageName(lang) + " Bible Quiz | " + IntToString(year);
    var u := w + " -" + rest;
    assert TitleFor(week, lang, year) == "Week " + u;
  }

  /** A space-free prefix ends at the first " -" that follows it. */
  lemma DashAfterSpaceFree(w: string, rest: string)
    requires forall i :: 0 <= i < |w| ==> w[i] != ' '
    ensures IndexOfFrom(w + " -" + rest, " -", 0) == Some(|w|)
  {
    forall j: nat ensures !OccursAt(w, " -", j) {
      if j + 2 <= |w| {
        assert w[j..j + 2][0] == w[j] != ' ';
      }
    }
    FirstSeparatorAfter(w, " -", rest);
  }

  /** After "Week ", the first " -" in a title is the one right after the week's digits. */
  lemma TitleTail(week: int, lang: Language, year: int)
    ensures TitleFor(week, lang, year)[5..] ==
            IntToString(week) + " -" + (" " + LanguageName(lang) + " Bible Quiz | " + IntToString(year))
    ensures IndexOfFrom(TitleFor(week, lang, year)[5..], " -", 0) == Some(|IntToString(week)|)
  {
    TitleAfterWeekWord(week, lang, year);
    DashAfterSpaceFree(IntToString(week), " " + LanguageName(lang) + " Bible Quiz | " + IntToString(year));
  }

  /** Different (week, language, year) triples never produce the same form title. */
  lemma TitleForInjective(w1: int, l1: Language, y1: int, w2: int, l2: Language, y2: int)
    requires TitleFor(w1, l1, y1) == TitleFor(w2, l2, y2)
    ensures w1 == w2 && l1 == l2 && y1 == y2
  {
    var t := TitleFor(w1, l1, y1);
    TitleTail(w1, l1, y1);
    TitleTail(w2, l2, y2);
    var a, b := IntToString(w1), IntToString(w2);
    assert |a| == |b|;
    assert a == t[5..][..|a|] == b;
    IntToStringInjective(w1, w2);
    var r1 := " " + LanguageName(l1) + " Bible Quiz | " + IntToString(y1);
    var r2 := " " + LanguageName(l2) + " Bible Quiz | " + IntToString(y2);
    assert r1 == t[5..][|a| + 2..] == r2;
    var n1, n2 := LanguageName(l1), LanguageName(l2);
    assert r1[1] == n1[0] == (if l1 == English then 'E' else 'T');
    assert r2[1] == n2[0] == (if l2 == English then 'E' else 'T');
    assert l1 == l2;
    var p := " " + LanguageName(l1) + " Bible Quiz | ";
    assert r1 == p + IntToString(y1) && r2 == p + IntToString(y2);
    assert IntToString(y1) == r1[|p|..] == IntToString(y2);
    IntToStringInjective(y1, y2);
  }

  /** "Week {week} | {dates} | {portion}": the description used when no override is given. */
  function DefaultDescription(md: QuizMetadata): string {
    "Week " + IntToString(md.week) + " | " + md.dates + " | " + md.portion
  }

  /**
   * The form description: a present, non-empty override wins; an absent or empty one
   * falls back to the default, so the description is never empty.
   */
  function Description(quiz: Quiz): (r: string)
    ensures r != []
    ensures quiz.customDescription.Some? && quiz.customDescription.value != "" ==> r == quiz.customDescription.value
    ensures quiz.customDescription.None? || quiz.customDescription.value == "" ==> r == DefaultDescription(quiz.metadata)
  {
    match quiz.customDescription
    case Some(d) => if d != "" then d else DefaultDescription(quiz.metadata)
    case None => DefaultDescription(quiz.metadata)
  }
}
