# Bible quiz to Google Forms: a verified model of the core

This project models in Dafny the core of a tool that builds weekly Bible-quiz Google
Forms, in English and Tamil, from a Google Sheet, and proves properties of that model.

- **Domain** (`domain.dfy`): the two languages; questions, with their display title
  "{id}. {text}" and answer key "{scripture}, {answer}"; the per-week metadata; and the
  per-language quiz, with its form title "Week {w} - {English|Tamil} Bible Quiz | {year}"
  and its description. A non-empty override is the description; otherwise it is
  "Week {w} | {dates} | {portion}".
- **Sheets** (`sheets.dfy`): the Sheets-backed repository as a class. The class caches the
  sheet title it resolves from the configured sheet id. It fetches the `'{name}'!A:J`
  range, finds the week's metadata in the first matching row after the header, and
  collects the week's questions from the language's columns. Rows that are short or blank
  are dropped. A matching metadata row that has only two or three cells raises an
  IndexError in the source. Here that is the `ShortRow` outcome.
- **Description override** (`overlay.dfy`): `English.md` / `Tamil.md`. The first line is
  replaced by the computed header, then a blank line, then the rest of the file stripped.
- **Use cases** (`assembly.dfy`, `preview_quiz.dfy`, `create_quiz.dfy`): the preview and
  create `execute` loops. They run over the requested language, or over English then
  Tamil. Each builds one quiz per language that has questions, and the create path
  submits each quiz to the form service.
- **Forms** (`forms.dfy`): the title-collision probe ("base", "base (1)", "base (2)", …)
  against the existing non-trashed forms. Then it creates one form, either a template copy
  or a blank form, and sends a single batch update. That update sets the title and
  description, turns on quiz settings when there is no template, and adds one graded,
  required short-answer item per question. The result is the form's edit URL.
- Supporting modules: `options.dfy` (optional values, and the present values of a
  sequence of them), `strings.dfy` (the pieces of Python string behaviour the code relies
  on) and `ports.dfy` (the two collaborator interfaces the use cases are written against).

The remote services and the file system are parameters:
- the spreadsheet's sheet list and its rows per range;
- the names of the existing forms, and the id the Forms service issues;
- the description files, as a function from a file name to its lines;
- the two ports, as records of functions.

`CreateForm` returns every remote call it makes, in order.

## Model

| member | source | states |
|---|---|---|
| Domain.Language.Code | src/domain/models.py:5-7 | each language's value is a two-letter code, and that code reads back as the same language |
| Domain.LanguageCodes | src/domain/models.py:5-7 | exactly "EN" and "TA" are language values, and a value names a language exactly when it is that language's code |
| Domain.FormattedTitle | src/domain/models.py:18-21 | the display title is the id, then ". ", then the text: the id is its prefix and the text its suffix after two more characters |
| Domain.FormattedAnswerKey | src/domain/models.py:23-26 | the answer key is the scripture, then ", ", then the answer: the scripture is its prefix and the answer its suffix after two more characters |
| Domain.Defaults | src/domain/models.py:9-33 | a question built without points has 2 points; metadata built without a year has year 2026 |
| Domain.FormattedTitleSplits | src/domain/models.py:18-21 | the display title is id, ". ", text: splitting it at its first ". " gives back the id and the text whenever the id contains no ". " |
| Domain.FormattedAnswerKeySplits | src/domain/models.py:23-26 | the answer key is scripture, ", ", answer: splitting it at its first ", " gives back scripture and answer whenever the scripture contains no ", " |
| Domain.FormattedAnswerKeyExample | src/domain/models.py:23-26 | scripture "Gen 2:8" with answer "East" gives "Gen 2:8, East" |
| Domain.QuizTitleExample | src/domain/models.py:42-45 | week 3 of 2026 in English is titled "Week 3 - English Bible Quiz \| 2026" |
| Domain.TitleForInjective | src/domain/models.py:42-45 | two quizzes with the same form title have the same week, language and year |
| Domain.TitleFor | src/domain/models.py:42-45 | a form title "Week {w} - {English\|Tamil} Bible Quiz \| {year}" contains no single quote and no backslash |
| Domain.QuizTitle | src/domain/models.py:42-45 | a quiz's title is the form title of its week, language and year, so it contains no single quote and no backslash |
| Domain.DefaultDescription | src/domain/models.py:51 | computes "Week {w} \| {dates} \| {portion}"; it has no contract of its own: `Description` makes it the description when no non-empty override is present, and `OverlayLayout` makes it the header of a loaded override |
| Domain.Description | src/domain/models.py:47-51 | a present non-empty override is the description; an absent or empty one gives "Week {w} \| {dates} \| {portion}"; the description is never empty |
| Strings.Strip | src/application/create_quiz.py:35 | `strip()` is never longer than its input, leaves no whitespace at either end, and gives the empty string exactly for all-whitespace text |
| Strings.StripRemovesOnlyWhitespace | src/application/create_quiz.py:35 | `strip()` removes only whitespace: its result is the text less a blank prefix and a blank suffix |
| Strings.StripIdempotent | src/application/create_quiz.py:35 | stripping a stripped text changes nothing |
| Strings.IntToStringRoundTrip | src/infrastructure/google/sheets.py:55-57 | `int(str(w)) == w` for every integer, so the week read back from a matching cell is the requested week |
| Strings.IntToStringInjective | src/infrastructure/google/sheets.py:55 | different weeks have different decimal texts, so a week cell matches at most one week |
| Sheets.FirstWeekRow | src/infrastructure/google/sheets.py:54-55 | the returned row is the first one at or after the start whose week cell matches; with no result, no such row matches |
| Sheets.MetadataFor | src/infrastructure/google/sheets.py:48-62 | fewer than two rows give no metadata; found metadata has the requested week and the configured year; an IndexError row is after the header and has two or three cells |
| Sheets.MetadataFromFirstMatch | src/infrastructure/google/sheets.py:54-61 | the first matching row after the header alone decides: its dates (column 2) and portion (column 3) with the requested week and year, or the IndexError when it is short |
| Sheets.MetadataNotFound | src/infrastructure/google/sheets.py:50-62 | no metadata exactly when no row after the header matches the week |
| Sheets.ScanMetadata | src/infrastructure/google/sheets.py:48-62 | the early-return loop computes the metadata lookup |
| Sheets.RowQuestion | src/infrastructure/google/sheets.py:70-92 | a row gives a question exactly when it has ten cells, matches the week, and the language's text and answer are not blank; id column 0, scripture column 6, text and answer from columns 5/7 for Tamil and 8/9 otherwise, unstripped, with the requested week and the configured points |
| Sheets.RowQuestionStripped | src/infrastructure/google/sheets.py:84 | the blank test is exactly "`strip()` of the text and of the answer are non-empty" |
| Sheets.Collect | src/infrastructure/google/sheets.py:70-92 | never more questions than rows |
| Sheets.CollectFields | src/infrastructure/google/sheets.py:70-92 | every collected question has the requested week, the configured points, and a non-blank text and answer |
| Sheets.CollectIsOrderedSubsequence | src/infrastructure/google/sheets.py:70-92 | the questions come from rows at strictly increasing positions, each is its row's question, and every row that yields a question is included |
| Sheets.QuestionsFor | src/infrastructure/google/sheets.py:64-94 | fewer than two rows give no questions; otherwise there are fewer questions than rows; every question has the requested week, the configured points, and a non-blank text and answer |
| Sheets.QuestionsIgnoreHeader | src/infrastructure/google/sheets.py:70 | the header row never contributes: replacing the first row by any other row leaves the questions unchanged |
| Sheets.ScanQuestions | src/infrastructure/google/sheets.py:64-94 | the appending loop over the rows after the header computes the question list; fewer than two rows give none |
| Sheets.FindSheet | src/infrastructure/google/sheets.py:27-30 | the first sheet with the id, and none exactly when no sheet has it |
| Sheets.RangeNameRoundTrip | src/infrastructure/google/sheets.py:41 | the range is an opening quote, the sheet name, then "'!A:J", and the name is recovered from it |
| Sheets.GoogleSheetRepository.constructor | src/infrastructure/google/sheets.py:12-15 | starts with an empty cache and no lookups made |
| Sheets.GoogleSheetRepository.SheetNameById | src/infrastructure/google/sheets.py:17-33 | a cached non-empty name is returned with no lookup; otherwise one lookup; a found title is returned and cached; if not found, the configured name is returned and the cache is unchanged; called with the configured id, it keeps the cache consistent |
| Sheets.GoogleSheetRepository.AllRows | src/infrastructure/google/sheets.py:35-46 | reads the range of the resolved sheet and its rows whether or not the name was cached; a lookup happens only with an id and no cached name; the title is cached exactly when the configured sheet exists |
| Sheets.GoogleSheetRepository.GetQuizMetadata | src/infrastructure/google/sheets.py:48-62 | the metadata lookup over the sheet's rows; a lookup is made only with a sheet id and no usable cached name; afterwards the configured sheet's title is cached exactly when that sheet exists; the cache stays consistent |
| Sheets.GoogleSheetRepository.GetQuestions | src/infrastructure/google/sheets.py:64-94 | the question scan over the sheet's rows with the configured points; a lookup is made only with a sheet id and no usable cached name; afterwards the configured sheet's title is cached exactly when that sheet exists; the cache stays consistent |
| Sheets.FetchTwice | src/infrastructure/google/sheets.py:19-30 | when the configured sheet id is set and its sheet exists with a non-empty title, two fetches read the same rows and make at most one sheet lookup between them |
| Sheets.MetadataThenQuestions | src/infrastructure/google/sheets.py:19-30 | when the configured sheet id is set and its sheet exists with a non-empty title, a metadata fetch followed by a question fetch, as the use cases issue them, answer from the same rows and make at most one sheet lookup between them |
| DescriptionOverlay.DescriptionFileName | src/application/create_quiz.py:22 | computes "English.md" for English and "Tamil.md" otherwise; it has no contract of its own: `CustomDescription` ties the override to the file it names |
| DescriptionOverlay.CustomDescription | src/application/create_quiz.py:20-37 | no override exactly when the language's file is missing or empty |
| DescriptionOverlay.OverlayLayout | src/application/create_quiz.py:32-37 | a loaded override is the computed header, a blank line, and the rest of the file stripped; it is never empty (the preview use case's formatter at src/application/preview_quiz.py:31-36 is the same code) |
| DescriptionOverlay.OverlayIgnoresFirstLine | src/application/create_quiz.py:32-35 | files that differ only in their first line give the same override |
| DescriptionOverlay.DescriptionWithOverlay | src/application/create_quiz.py:52-58 | a quiz built with the loaded override is described by it, or by the default when none was loaded |
| DescriptionOverlay.OverlayExample | src/application/create_quiz.py:20-37 | the lines "OLD HEADER\n", "Line A\n", "Line B" for week 3, "Jan 1-7", "Genesis 1-3" give "Week 3 \| Jan 1-7 \| Genesis 1-3\n\nLine A\nLine B" |
| QuizAssembly.LanguagesToProcess | src/application/create_quiz.py:46 | the requested language alone; otherwise English then Tamil; never a repeat |
| QuizAssembly.PlannedQuizzes | src/application/create_quiz.py:48-60 | the quizzes in processing order, one per language with questions; it has no contract of its own: the four lemmas below state what it returns |
| QuizAssembly.PlannedQuizzesSound | src/application/create_quiz.py:48-60 | every quiz has the shared metadata, a processed language, that language's fetched questions unchanged (never none) and its override; there are no more quizzes than languages |
| QuizAssembly.PlannedLanguagesDistinct | src/application/create_quiz.py:46-60 | when no language is processed twice, no two quizzes share a language |
| QuizAssembly.PlannedQuizzesComplete | src/application/preview_quiz.py:47-57 | every processed language with questions has a quiz |
| QuizAssembly.PlannedForBothLanguages | src/application/preview_quiz.py:45-57 | with no language requested: English's quiz if it has questions, followed by Tamil's if it has questions |
| QuizAssembly.PlannedForOneLanguage | src/application/create_quiz.py:46-60 | with a language requested: that language's quiz, or nothing when it has no questions |
| PreviewQuiz.Execute | src/application/preview_quiz.py:38-62 | no metadata: None, and no questions fetched; otherwise each language is fetched in processing order; the result is present exactly when some quiz was built, and holds the metadata and the quizzes in order |
| CreateQuiz.Execute | src/application/create_quiz.py:39-65 | no metadata: None, with no fetch and no form; otherwise one `create_form` call per language with questions, in order; no two calls receive quizzes of the same language; one (language, URL) pair per call, with the URL it returned; None exactly when no form was created |
| Forms.Escape | src/infrastructure/google/forms.py:23 | escaping never shortens the title |
| Forms.EscapeUnchanged | src/infrastructure/google/forms.py:23 | escaping leaves a title unchanged exactly when it has no single quote |
| Forms.EscapedQuotes | src/infrastructure/google/forms.py:23-24 | every single quote in the escaped title follows a backslash, so none of them closes the query's literal |
| Forms.EscapeRoundTrip | src/infrastructure/google/forms.py:22-24 | the quoted literal in the query reads back as the candidate title, for titles without a backslash |
| Forms.QuizProbesNeedNoEscape | src/infrastructure/google/forms.py:23 | every probe title of a quiz is left unchanged by the escaping |
| Forms.Candidate | src/infrastructure/google/forms.py:18-35 | every probe title starts with the base title, and only probe 0 is the base title itself; probe n > 0 is the base title followed by exactly " (n)", so a suffix is never added to a suffixed title |
| Forms.CandidatesDistinct | src/infrastructure/google/forms.py:35-36 | different counters give different titles |
| Forms.TakenCandidatesBound | src/infrastructure/google/forms.py:21-36 | if the first n probes are all taken, there are at least n existing names |
| Forms.FirstFreeUnique | src/infrastructure/google/forms.py:21-36 | only one probe can be the first free one, so the chosen title is determined by the existing names |
| Forms.FirstFreeBound | src/infrastructure/google/forms.py:21-36 | the first free probe's counter is at most the number of existing names |
| Forms.ProbeCallsShape | src/infrastructure/google/forms.py:21-30 | the probes query candidates 0, 1, 2, … in order, one Drive query each |
| Forms.UniqueTitle | src/infrastructure/google/forms.py:16-36 | the returned title is not taken, every earlier probe was, and at most one more query than existing names is made; a free base is returned unchanged after one query |
| Forms.BatchRequests | src/infrastructure/google/forms.py:69-119 | the requests have the batch layout: the info update first, the settings update next when there is no template, then the item for question i at index i |
| Forms.BatchLayoutUnique | src/infrastructure/google/forms.py:70-119 | the layout determines the request list completely |
| Forms.BatchLayoutContents | src/infrastructure/google/forms.py:84-119 | 1 + (0 with a template, else 1) + one per question requests; a settings update occurs exactly when there is no template; each item is required, titled with its question's display title, worth its points, with the answer key as its one correct answer |
| Forms.FormUrl | src/infrastructure/google/forms.py:123 | the form id is recovered from the edit URL |
| Forms.CreateForm | src/infrastructure/google/forms.py:38-123 | the probes, then one copy of the template under the unique title (or one blank form titled with it), then one batch update with that layout against the issued id; returns its edit URL |
| Forms.LinkResponses | src/infrastructure/google/forms.py:125-130 | makes no call at all |

## Left out

- The user interfaces, command line, OAuth flow and settings loading are not part of this
  model. The settings become parameters: the year, the default points, the sheet id and
  the sheet name go to the repository constructor, and the template id goes to `CreateForm`.
- The Google API calls and the file system are values given to the model. Remote failures,
  retries and exceptions are not modelled. The one exception represented is the IndexError
  of a short metadata row (`ShortRow`); its propagation out of the use cases is not modelled.
- The race between the title probe and form creation is not modelled, and neither is the
  orphaned form left when the batch update fails. Both are about concurrency and remote failure.
- The two ports are records of functions, so the use cases are proved against any answers.
  The Sheets repository's answers are `MetadataFor` and `QuestionsFor` over its rows, and
  these do not depend on its cache. The model does not state a lemma that links the class
  to the port record.
- The form service port is a function from a quiz to a URL. Within one `execute`, every
  call receives a quiz of a different language (`CreateQuiz.Execute` and
  `PlannedLanguagesDistinct` state it), so this loses nothing about one run.
  Different URLs for the same quiz in different runs are not modelled.
- `CreateForm` takes the id the service issues as one parameter. The ids returned by the
  copy call and by the create call are not told apart.
- `str.strip()` uses a fixed ASCII whitespace set (space, tab, newline, carriage return,
  vertical tab, form feed), not Python's Unicode classification.
- Cells are texts, so `str(cell)` is the identity. `int()` is modelled on the decimal texts
  `str(int)` produces; no other integer syntax is modelled.
- The ports in `src/application/ports/interfaces.py` are abstract classes with no behaviour.
  They are the datatypes `Ports.SheetRepository` and `Ports.FormService`, which have no
  contract and so no row above. `link_responses` is not in the `FormService` record because
  no use case calls it. The Forms adapter's version is `Forms.LinkResponses`.
- Pydantic validation of the models is not modelled.
- The escaping puts a backslash before each single quote and leaves backslashes alone. The
  round trip therefore holds only for titles without a backslash, and quiz titles never
  contain one.
- `lookups` is a ghost counter of spreadsheet-metadata requests, kept for the cache
  properties. `Valid()` says a cached name is the configured sheet's title. The constructor
  sets it up, and `AllRows`, `GetQuizMetadata` and `GetQuestions` keep it. `SheetNameById`
  keeps it when called with the configured sheet id, as its one caller does. Called with
  another id it would cache that sheet's title, as the source's method would.
- The remote spreadsheet (its sheets and their values) is fixed for the lifetime of a
  `GoogleSheetRepository`. A sheet renamed after its title was cached, which would leave the
  cache stale, is not modelled; `FetchTwice` reading the same rows twice relies on this.
- Description files are given by the lines `readlines()` would return. Text encoding is not
  modelled.
