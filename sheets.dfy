/**
 * Row ingestion from the source spreadsheet: the sheet-name lookup with its
 * one-shot instance cache, the fetch range, the metadata lookup (first matching
 * row wins) and the lenient question scan (short or blank rows are dropped).
 *
 * The remote spreadsheet is given as values: the sheet properties the metadata
 * request returns and, per range, the rows the values request returns.
 */
module Sheets {

  import opened Options
  import opened Strings
  import opened Domain

  /** One row as the values request returns it: formatted cell texts, trailing empty cells omitted. */
  type Row = seq<string>

  const IdColumn: nat := 0
  const WeekColumn: nat := 1
  const DatesColumn: nat := 2
  const PortionColumn: nat := 3
  const ScriptureColumn: nat := 6

  /** Question text: column F for Tamil, column I for every other language. */
  function TextColumn(lang: Language): nat {
    if lang == Tamil then 5 else 8
  }

  /** Answer: column H for Tamil, column J for every other language. */
  function AnswerColumn(lang: Language): nat {
    if lang == Tamil then 7 else 9
  }

  /** The row has a week cell whose text is the decimal text of `week`. */
  predicate IsWeekRow(row: Row, week: int) {
    |row| > WeekColumn && row[WeekColumn] == IntToString(week)
  }

  // ---------------------------------------------------------------------------
  // Metadata lookup
  // ---------------------------------------------------------------------------

  /**
   * Outcome of `get_quiz_metadata`: the metadata, no matching row, or the IndexError
   * raised when the first matching row (at `index`) has no dates or portion cell.
   */
  datatype MetadataLookup = Found(metadata: QuizMetadata) | NotFound | ShortRow(index: nat)

  /** The first row at or after `k` whose week cell matches. */
  function FirstWeekRow(rows: seq<Row>, week: int, k: nat): (r: Option<nat>)
    decreases |rows| - k
    ensures r.Some? ==> k <= r.value < |rows| && IsWeekRow(rows[r.value], week)
    ensures r.Some? ==> forall j :: k <= j < r.value ==> !IsWeekRow(rows[j], week)
    ensures r.None? ==> forall j :: k <= j < |rows| ==> !IsWeekRow(rows[j], week)
  {
    if k >= |rows| then None
    else if IsWeekRow(rows[k], week) then Some(k)
    else FirstWeekRow(rows, week, k + 1)
  }

  /**
   * The metadata of `week`: the first row after the header whose week cell matches
   * supplies dates and portion; the week is read back from that cell and the year
   * is the configured one.
   */
  function MetadataFor(rows: seq<Row>, week: int, year: int): (r: MetadataLookup)
    ensures |rows| < 2 ==> r == NotFound
    ensures r.Found? ==> r.metadata.week == week && r.metadata.year == year
    ensures r.ShortRow? ==> 1 <= r.index < |rows| && 2 <= |rows[r.index]| < 4
  {
    if |rows| < 2 then NotFound
    else match FirstWeekRow(rows, week, 1)
      case None => NotFound
      case Some(i) =>
        if |rows[i]| < 4 then ShortRow(i)
        else
          IntToStringRoundTrip(week);
          Found(QuizMetadata(ParseInt(rows[i][WeekColumn]).value, rows[i][DatesColumn], rows[i][PortionColumn], year))
  }

  /**
   * First match wins: when row `i` is the first row after the header for `week`, it alone
   * decides the outcome, and the header row is never consulted.
   */
  lemma MetadataFromFirstMatch(rows: seq<Row>, week: int, year: int, i: nat)
    requires 1 <= i < |rows| && IsWeekRow(rows[i], week)
    requires forall j :: 1 <= j < i ==> !IsWeekRow(rows[j], week)
    ensures MetadataFor(rows, week, year) ==
      if |rows[i]| >= 4 then Found(QuizMetadata(week, rows[i][2], rows[i][3], year)) else ShortRow(i)
  {
  }

  /** The week is reported absent exactly when no row after the header matches it. */
  lemma MetadataNotFound(rows: seq<Row>, week: int, year: int)
    ensures MetadataFor(rows, week, year) == NotFound <==> forall j :: 1 <= j < |rows| ==> !IsWeekRow(rows[j], week)
  {
    if |rows| >= 2 {
      var f := FirstWeekRow(rows, week, 1);
      if f.Some? {
        assert IsWeekRow(rows[f.value], week);
      }
    }
  }

  /** `get_quiz_metadata`'s scan: skip the header, return at the first row for `week`. */
  method ScanMetadata(rows: seq<Row>, week: int, year: int) returns (r: MetadataLookup)
    ensures r == MetadataFor(rows, week, year)
  {
    if |rows| < 2 {
      return NotFound;
    }
    var k := 1;
    while k < |rows|
      invariant 1 <= k <= |rows|
      invariant FirstWeekRow(rows, week, 1) == FirstWeekRow(rows, week, k)
    {
      var row := rows[k];
      if |row| > 1 && row[1] == IntToString(week) {
        if |row| < 4 {
          // row[2] or row[3] raises IndexError
          return ShortRow(k);
        }
        IntToStringRoundTrip(week);
        var w := ParseInt(row[1]);
        return Found(QuizMetadata(w.value, row[2], row[3], year));
      }
      k := k + 1;
    }
    return NotFound;
  }

  // ---------------------------------------------------------------------------
  // Question scan
  // ---------------------------------------------------------------------------

  /**
   * What one row contributes to `get_questions`: a question exactly when the row has all
   * ten columns, is for `week`, and the language's text and answer are not blank; the
   * text and answer are kept unstripped.
   */
  function RowQuestion(row: Row, week: int, lang: Language, points: int): (r: Option<Question>)
    ensures r.Some? <==> |row| >= 10 && IsWeekRow(row, week) && !IsBlank(row[TextColumn(lang)]) && !IsBlank(row[AnswerColumn(lang)])
    ensures r.Some? ==> r.value == Question(row[IdColumn], week, row[TextColumn(lang)], row[AnswerColumn(lang)], row[ScriptureColumn], points)
  {
    if |row| >= 10 && row[1] == IntToString(week) then
      var text := if lang == Tamil then row[5] else row[8];
      var answer := if lang == Tamil then row[7] else row[9];
      if !IsBlank(text) && !IsBlank(answer) then
        Some(Question(row[0], week, text, answer, row[6], points))
      else None
    else None
  }

  /** The row test is Python's: both cells are truthy after `.strip()`. */
  lemma RowQuestionStripped(row: Row, week: int, lang: Language, points: int)
    ensures RowQuestion(row, week, lang, points).Some? <==>
      |row| >= 10 && IsWeekRow(row, week) && Strip(row[TextColumn(lang)]) != "" && Strip(row[AnswerColumn(lang)]) != ""
  {
  }

  /** The questions the rows contribute, in row order. */
  function Collect(rows: seq<Row>, week: int, lang: Language, points: int): (r: seq<Question>)
    ensures |r| <= |rows|
  {
    if rows == [] then []
    else
      var n := |rows| - 1;
      var earlier := Collect(rows[..n], week, lang, points);
      var found := RowQuestion(rows[n], week, lang, points);
      if found.Some? then earlier + [found.value] else earlier
  }

  /** Every collected question is for the requested week, has the configured points, and has a non-blank text and answer. */
  lemma {:induction false} CollectFields(rows: seq<Row>, week: int, lang: Language, points: int)
    ensures forall q :: q in Collect(rows, week, lang, points) ==>
      q.week == week && q.points == points && !IsBlank(q.text) && !IsBlank(q.answer)
  {
    if rows != [] {
      var n := |rows| - 1;
      CollectFields(rows[..n], week, lang, points);
      var found := RowQuestion(rows[n], week, lang, points);
      if found.Some? {
        assert Collect(rows, week, lang, points) == Collect(rows[..n], week, lang, points) + [found.value];
      }
    }
  }

  /** `get_questions` over the fetched rows: the header row is skipped. */
  function QuestionsFor(rows: seq<Row>, week: int, lang: Language, points: int): (r: seq<Question>)
    ensures |rows| < 2 ==> r == []
    ensures |rows| >= 2 ==> |r| <= |rows| - 1
    ensures forall q :: q in r ==> q.week == week && q.points == points && !IsBlank(q.text) && !IsBlank(q.answer)
  {
    if |rows| < 2 then []
    else
      CollectFields(rows[1..], week, lang, points);
      Collect(rows[1..], week, lang, points)
  }

  /** The header row never contributes: replacing it leaves the questions unchanged. */
  lemma QuestionsIgnoreHeader(rows: seq<Row>, header: Row, week: int, lang: Language, points: int)
    requires |rows| >= 1
    ensures QuestionsFor(rows, week, lang, points) == QuestionsFor([header] + rows[1..], week, lang, points)
  {
    assert ([header] + rows[1..])[1..] == rows[1..];
  }

  /** What each row contributes, position by position. */
  function Contributions(rows: seq<Row>, week: int, lang: Language, points: int): (r: seq<Option<Question>>)
    ensures |r| == |rows|
    ensures forall i :: 0 <= i < |rows| ==> r[i] == RowQuestion(rows[i], week, lang, points)
  {
    seq(|rows|, i requires 0 <= i < |rows| => RowQuestion(rows[i], week, lang, points))
  }

  lemma {:induction false} CollectIsSomes(rows: seq<Row>, week: int, lang: Language, points: int)
    ensures Collect(rows, week, lang, points) == Somes(Contributions(rows, week, lang, points))
  {
    if rows != [] {
      var n := |rows| - 1;
      CollectIsSomes(rows[..n], week, lang, points);
      assert Contributions(rows, week, lang, points)[..n] == Contributions(rows[..n], week, lang, points);
    }
  }

  /**
   * The scan keeps rows in order and loses none: its output is the subsequence of the
   * rows' contributions at increasing positions, and every contributing row is included.
   */
  lemma CollectIsOrderedSubsequence(rows: seq<Row>, week: int, lang: Language, points: int)
    ensures var ps := SomePositions(Contributions(rows, week, lang, points));
      && |ps| == |Collect(rows, week, lang, points)|
      && (forall k :: 0 <= k < |ps| ==>
            ps[k] < |rows| && RowQuestion(rows[ps[k]], week, lang, points) == Some(Collect(rows, week, lang, points)[k]))
      && (forall k1, k2 :: 0 <= k1 < k2 < |ps| ==> ps[k1] < ps[k2])
      && (forall i :: 0 <= i < |rows| && RowQuestion(rows[i], week, lang, points).Some? ==> i in ps)
  {
    CollectIsSomes(rows, week, lang, points);
    SomesIsOrderedSubsequence(Contributions(rows, week, lang, points));
  }

  /** Scanning one more row appends that row's contribution. */
  lemma CollectStep(body: seq<Row>, i: nat, week: int, lang: Language, points: int)
    requires i < |body|
    ensures var found := RowQuestion(body[i], week, lang, points);
      Collect(body[..i + 1], week, lang, points) ==
      Collect(body[..i], week, lang, points) + if found.Some? then [found.value] else []
  {
    assert body[..i + 1][..i] == body[..i];
  }

  /** `get_questions`' loop: over the rows after the header, append each row's question in order. */
  method ScanQuestions(rows: seq<Row>, week: int, lang: Language, points: int) returns (questions: seq<Question>)
    ensures questions == QuestionsFor(rows, week, lang, points)
  {
    if |rows| < 2 {
      return [];
    }
    questions := [];
    var body := rows[1..];
    var i := 0;
    while i < |body|
      invariant 0 <= i <= |body|
      invariant questions == Collect(body[..i], week, lang, points)
    {
      var row := body[i];
      CollectStep(body, i, week, lang, points);
      if |row| >= 10 && row[1] == IntToString(week) {
        var id := row[0];
        var scripture := row[6];
        var text, answer;
        if lang == Tamil {
          text, answer := row[5], row[7];
        } else {
          text, answer := row[8], row[9];
        }
        if !IsBlank(text) && !IsBlank(answer) {
          assert RowQuestion(row, week, lang, points) == Some(Question(id, week, text, answer, scripture, points));
          questions := questions + [Question(id, week, text, answer, scripture, points)];
        } else {
          assert RowQuestion(row, week, lang, points) == None;
        }
      } else {
        assert RowQuestion(row, week, lang, points) == None;
      }
      i := i + 1;
    }
    assert body[..i] == body;
  }

  // ---------------------------------------------------------------------------
  // The repository
  // ---------------------------------------------------------------------------

  /** The `properties` of one sheet in the spreadsheet's metadata. */
  datatype SheetProperties = SheetProperties(sheetId: int, title: string)

  /** The first sheet whose id is `sheetId`. */
  function FindSheet(sheets: seq<SheetProperties>, sheetId: int, k: nat := 0): (r: Option<nat>)
    decreases |sheets| - k
    ensures r.Some? ==> k <= r.value < |sheets| && sheets[r.value].sheetId == sheetId
    ensures r.Some? ==> forall j :: k <= j < r.value ==> sheets[j].sheetId != sheetId
    ensures r.None? ==> forall j :: k <= j < |sheets| ==> sheets[j].sheetId != sheetId
  {
    if k >= |sheets| then None
    else if sheets[k].sheetId == sheetId then Some(k)
    else FindSheet(sheets, sheetId, k + 1)
  }

  /** The A1 range for columns A to J of a sheet, its name quoted: "'{name}'!A:J". */
  function RangeName(sheetName: string): string {
    "'" + sheetName + "'!A:J"
  }

  /** The sheet name is recovered from the range by dropping the quote and the "'!A:J" suffix. */
  lemma RangeNameRoundTrip(sheetName: string)
    ensures |RangeName(sheetName)| == |sheetName| + 6
    ensures RangeName(sheetName)[0] == '\''
    ensures RangeName(sheetName)[1..|sheetName| + 1] == sheetName
    ensures RangeName(sheetName)[|sheetName| + 1..] == "'!A:J"
  {
  }

  /** A cached name is used only when present and non-empty, like `if self._cached_sheet_name:`. */
  predicate CacheHit(cache: Option<string>) {
    cache.Some? && cache.value != ""
  }

  /**
   * The Sheets-backed repository. The remote spreadsheet is fixed for the instance's
   * lifetime; `cachedSheetName` is the only field that changes, and `lookups` counts the
   * spreadsheet-metadata requests issued so far.
   */
  class GoogleSheetRepository {

    const sheets: seq<SheetProperties>
    const values: map<string, seq<Row>>
    const sourceSheetId: Option<int>
    const sourceSheetName: string
    const quizYear: int
    const defaultPoints: int

    var cachedSheetName: Option<string>
    ghost var lookups: nat

    /** A cached name is the title of the configured sheet. */
    ghost predicate Valid()
      reads this
    {
      cachedSheetName.Some? ==>
        sourceSheetId.Some? &&
        FindSheet(sheets, sourceSheetId.value).Some? &&
        sheets[FindSheet(sheets, sourceSheetId.value).value].title == cachedSheetName.value
    }

    /** The sheet name an instance with an empty cache resolves. */
    function SheetName(): string {
      match sourceSheetId
      case None => sourceSheetName
      case Some(id) =>
        match FindSheet(sheets, id)
        case Some(i) => sheets[i].title
        case None => sourceSheetName
    }

    /** The rows the values request returns for the resolved sheet; none when it has no values. */
    function SheetRows(): seq<Row> {
      var range := RangeName(SheetName());
      if range in values then values[range] else []
    }

    constructor (sheets: seq<SheetProperties>, values: map<string, seq<Row>>, sourceSheetId: Option<int>,
                 sourceSheetName: string, quizYear: int, defaultPoints: int)
      ensures Valid()
      ensures this.sheets == sheets && this.values == values && this.sourceSheetId == sourceSheetId
      ensures this.sourceSheetName == sourceSheetName && this.quizYear == quizYear && this.defaultPoints == defaultPoints
      ensures cachedSheetName == None && lookups == 0
    {
      this.sheets := sheets;
      this.values := values;
      this.sourceSheetId := sourceSheetId;
      this.sourceSheetName := sourceSheetName;
      this.quizYear := quizYear;
      this.defaultPoints := defaultPoints;
      cachedSheetName := None;
      lookups := 0;
    }

    /**
     * `_get_sheet_name_by_id`: a cached non-empty name is returned without a lookup;
     * otherwise one lookup finds the first sheet with the id, whose title is cached and
     * returned; when none has it the configured name is returned and nothing is cached.
     */
    method SheetNameById(sheetId: int) returns (name: string)
      modifies this
      ensures old(Valid()) && sourceSheetId == Some(sheetId) ==> Valid()
      ensures CacheHit(old(cachedSheetName)) ==>
        name == old(cachedSheetName).value && cachedSheetName == old(cachedSheetName) && lookups == old(lookups)
      ensures !CacheHit(old(cachedSheetName)) ==> lookups == old(lookups) + 1
      ensures !CacheHit(old(cachedSheetName)) && FindSheet(sheets, sheetId).Some? ==>
        name == sheets[FindSheet(sheets, sheetId).value].title && cachedSheetName == Some(name)
      ensures !CacheHit(old(cachedSheetName)) && FindSheet(sheets, sheetId).None? ==>
        name == sourceSheetName && cachedSheetName == old(cachedSheetName)
    {
      if cachedSheetName.Some? && cachedSheetName.value != "" {
        return cachedSheetName.value;
      }
      lookups := lookups + 1;
      var k := 0;
      while k < |sheets|
        invariant 0 <= k <= |sheets|
        invariant FindSheet(sheets, sheetId) == FindSheet(sheets, sheetId, k)
        invariant cachedSheetName == old(cachedSheetName)
      {
        if sheets[k].sheetId == sheetId {
          cachedSheetName := Some(sheets[k].title);
          return sheets[k].title;
        }
        k := k + 1;
      }
      return sourceSheetName;
    }

    /**
     * `_get_all_rows`: the range of the resolved sheet and the rows fetched for it. The
     * cache never changes which sheet is read; after the call the configured sheet's
     * title is cached whenever the sheet exists, and a fallback name is never cached.
     */
    method AllRows() returns (range: string, rows: seq<Row>)
      requires Valid()
      modifies this
      ensures Valid()
      ensures range == RangeName(SheetName()) && rows == SheetRows()
      ensures lookups == old(lookups) + (if sourceSheetId.Some? && !CacheHit(old(cachedSheetName)) then 1 else 0)
      ensures sourceSheetId.Some? && FindSheet(sheets, sourceSheetId.value).Some? ==> cachedSheetName == Some(SheetName())
      ensures sourceSheetId.None? || FindSheet(sheets, sourceSheetId.value).None? ==> cachedSheetName == None
    {
      var sheetName;
      if sourceSheetId.Some? {
        sheetName := SheetNameById(sourceSheetId.value);
      } else {
        sheetName := sourceSheetName;
      }
      range := RangeName(sheetName);
      rows := if range in values then values[range] else [];
    }

    /** `get_quiz_metadata`: the metadata lookup over the current rows. */
    method GetQuizMetadata(week: int) returns (r: MetadataLookup)
      requires Valid()
      modifies this
      ensures Valid()
      ensures r == MetadataFor(SheetRows(), week, quizYear)
      ensures lookups == old(lookups) + (if sourceSheetId.Some? && !CacheHit(old(cachedSheetName)) then 1 else 0)
      ensures sourceSheetId.Some? && FindSheet(sheets, sourceSheetId.value).Some? ==> cachedSheetName == Some(SheetName())
      ensures sourceSheetId.None? || FindSheet(sheets, sourceSheetId.value).None? ==> cachedSheetName == None
    {
      var _, rows := AllRows();
      r := ScanMetadata(rows, week, quizYear);
    }

    /** `get_questions`: the question scan over the current rows, with the configured points. */
    method GetQuestions(week: int, lang: Language) returns (questions: seq<Question>)
      requires Valid()
      modifies this
      ensures Valid()
      ensures questions == QuestionsFor(SheetRows(), week, lang, defaultPoints)
      ensures lookups == old(lookups) + (if sourceSheetId.Some? && !CacheHit(old(cachedSheetName)) then 1 else 0)
      ensures sourceSheetId.Some? && FindSheet(sheets, sourceSheetId.value).Some? ==> cachedSheetName == Some(SheetName())
      ensures sourceSheetId.None? || FindSheet(sheets, sourceSheetId.value).None? ==> cachedSheetName == None
    {
      var _, rows := AllRows();
      questions := ScanQuestions(rows, week, lang, defaultPoints);
    }
  }

  /**
   * Two fetches on one instance whose configured sheet exists with a non-empty title
   * issue at most one sheet-metadata lookup between them, and read the same rows.
   */
  method FetchTwice(repo: GoogleSheetRepository) returns (first: seq<Row>, second: seq<Row>)
    requires repo.Valid()
    requires repo.sourceSheetId.Some? && FindSheet(repo.sheets, repo.sourceSheetId.value).Some?
    requires repo.SheetName() != ""
    modifies repo
    ensures repo.Valid()
    ensures first == second == repo.SheetRows()
    ensures repo.lookups <= old(repo.lookups) + 1
  {
    var _, a := repo.AllRows();
    var _, b := repo.AllRows();
    first, second := a, b;
  }

  /**
   * A metadata fetch followed by a question fetch, as the use cases issue them, on an
   * instance whose configured sheet exists with a non-empty title: one sheet-metadata
   * lookup at most, and both answers computed from the same rows.
   */
  method MetadataThenQuestions(repo: GoogleSheetRepository, week: int, lang: Language)
    returns (metadata: MetadataLookup, questions: seq<Question>)
    requires repo.Valid()
    requires repo.sourceSheetId.Some? && FindSheet(repo.sheets, repo.sourceSheetId.value).Some?
    requires repo.SheetName() != ""
    modifies repo
    ensures repo.Valid()
    ensures metadata == MetadataFor(repo.SheetRows(), week, repo.quizYear)
    ensures questions == QuestionsFor(repo.SheetRows(), week, lang, repo.defaultPoints)
    ensures repo.lookups <= old(repo.lookups) + 1
  {
    metadata := repo.GetQuizMetadata(week);
    questions := repo.GetQuestions(week, lang);
  }
}
