/**
 * The per-language description override that both use cases load: the first line
 * of the language's document is replaced by the week's computed header, and the
 * rest follows, stripped, after a blank line.
 */
module DescriptionOverlay {

  import opened Options
  import opened Strings
  import opened Domain

  /**
   * The file system as the use cases see it: for an existing file, the lines
   * `readlines()` returns (each keeping its line break); None for a missing file.
   */
  type Files = string -> Option<seq<string>>

  /** The override document of a language. */
  function DescriptionFileName(lang: Language): string {
    if lang == English then "English.md" else "Tamil.md"
  }

  /** `_get_custom_description`: None for a missing or empty document. */
  function CustomDescription(lang: Language, md: QuizMetadata, files: Files): (r: Option<string>)
    ensures r.None? <==> files(DescriptionFileName(lang)).None? || files(DescriptionFileName(lang)).value == []
  {
    match files(DescriptionFileName(lang))
    case None => None
    case Some(lines) =>
      if lines == [] then None
      else Some(DefaultDescription(md) + "\n\n" + Strip(Concat(lines[1..])))
  }

  /**
   * A loaded override starts with the week's computed header and a blank line, and what
   * follows is the rest of the document without surrounding whitespace; in particular it
   * is never empty, so the quiz uses it instead of the default.
   */
  lemma OverlayLayout(lang: Language, md: QuizMetadata, files: Files)
    requires CustomDescription(lang, md, files).Some?
    ensures var d := CustomDescription(lang, md, files).value;
            var header := DefaultDescription(md) + "\n\n";
            var body := d[|header|..];
      && |header| <= |d| && d[..|header|] == header
      && body == Strip(Concat(files(DescriptionFileName(lang)).value[1..]))
      && (body != [] ==> !IsSpace(body[0]) && !IsSpace(body[|body| - 1]))
      && d != ""
  {
    var header := DefaultDescription(md) + "\n\n";
    var body := Strip(Concat(files(DescriptionFileName(lang)).value[1..]));
    assert CustomDescription(lang, md, files).value == header + body;
  }

  /** The document's first line never reaches the description. */
  lemma OverlayIgnoresFirstLine(lang: Language, md: QuizMetadata, files1: Files, files2: Files)
    requires files1(DescriptionFileName(lang)).Some? && files2(DescriptionFileName(lang)).Some?
    requires var a, b := files1(DescriptionFileName(lang)).value, files2(DescriptionFileName(lang)).value;
      |a| >= 1 && |b| >= 1 && a[1..] == b[1..]
    ensures CustomDescription(lang, md, files1) == CustomDescription(lang, md, files2)
  {
  }

  /** A quiz built with the loaded override describes itself with it, or with the default when none was loaded. */
  lemma DescriptionWithOverlay(md: QuizMetadata, lang: Language, questions: seq<Question>, files: Files)
    ensures var custom := CustomDescription(lang, md, files);
      Description(Quiz(md, lang, questions, custom)) == if custom.Some? then custom.value else DefaultDescription(md)
  {
    if CustomDescription(lang, md, files).Some? {
      OverlayLayout(lang, md, files);
    }
  }

  /** The example document's remaining lines, joined and stripped. */
  lemma ExampleBody()
    ensures Strip(Concat(["Line A\n", "Line B"])) == "Line A\nLine B"
  {
    var body := "Line A\nLine B";
    assert Concat(["Line A\n", "Line B"]) == body by {
      assert Concat(["Line B"]) == "Line B";
    }
    assert TrimStart(body) == body by { assert !IsSpace(body[0]); }
    assert TrimEnd(body) == body by { assert !IsSpace(body[|body| - 1]); }
  }

  lemma ExampleHeader(md: QuizMetadata)
    requires md.week == 3 && md.dates == "Jan 1-7" && md.portion == "Genesis 1-3"
    ensures DefaultDescription(md) == "Week 3 | Jan 1-7 | Genesis 1-3"
  {
    assert IntToString(3) == "3";
  }

  /** Week 3's override from a three-line English document. */
  lemma OverlayExample(md: QuizMetadata, files: Files)
    requires md.week == 3 && md.dates == "Jan 1-7" && md.portion == "Genesis 1-3"
    requires files("English.md") == Some(["OLD HEADER\n", "Line A\n", "Line B"])
    ensures CustomDescription(English, md, files) == Some("Week 3 | Jan 1-7 | Genesis 1-3\n\nLine A\nLine B")
  {
    var lines: seq<string> := ["OLD HEADER\n", "Line A\n", "Line B"];
    assert lines[1..] == ["Line A\n", "Line B"];
    assert DescriptionFileName(English) == "English.md";
    assert CustomDescription(English, md, files) == Some(DefaultDescription(md) + "\n\n" + Strip(Concat(lines[1..])));
    ExampleBody();
    ExampleHeader(md);
    assert "Week 3 | Jan 1-7 | Genesis 1-3" + "\n\n" + "Line A\nLine B" == "Week 3 | Jan 1-7 | Genesis 1-3\n\nLine A\nLine B";
  }
}
