/**
 * Form provisioning: the title-collision probe against the existing, non-trashed
 * forms, the creation of the form (copied from a template or created blank), the
 * single batch update that sets title, description, quiz settings and items, and
 * the form's edit URL.
 *
 * The remote services are given as values: the names of the existing forms and the
 * id the service issues for the new form. Every remote call is returned, in order.
 */
module Forms {

  import opened Options
  import opened Strings
  import opened Domain

  /** A required short-answer question item, graded against its correct answers. */
  datatype Item = ShortAnswerItem(title: string, required: bool, pointValue: int, correctAnswers: seq<string>)

  /** One entry of a batch update's `requests` list. */
  datatype Request =
    | UpdateFormInfo(title: string, description: string, updateMask: string)
    | UpdateSettings(isQuiz: bool, emailCollectionType: string, updateMask: string)
    | CreateItem(item: Item, index: nat)

  /** A call to the Drive or Forms service. */
  datatype RemoteCall =
    | DriveList(query: string)
    | DriveCopy(fileId: string, name: string)
    | FormsCreate(title: string, documentTitle: string)
    | FormsBatchUpdate(formId: string, requests: seq<Request>)

  /** Quiz mode on and verified e-mail collection, for forms not copied from a template. */
  const QuizSettings: Request := UpdateSettings(true, "VERIFIED", "quizSettings.isQuiz,emailCollectionType")

  /** `if settings.TEMPLATE_FORM_ID:`: an empty template id counts as none. */
  predicate UsesTemplate(templateFormId: Option<string>) {
    templateFormId.Some? && templateFormId.value != ""
  }

  // ---------------------------------------------------------------------------
  // Title uniqueness
  // ---------------------------------------------------------------------------

  /** `s.replace("'", "\\'")`: each single quote gets a backslash in front. */
  function Escape(s: string): (r: string)
    ensures |r| >= |s|
  {
    if s == [] then [] else (if s[0] == '\'' then "\\'" else [s[0]]) + Escape(s[1..])
  }

  /** In an escaped literal every single quote follows a backslash, so none of them ends the literal. */
  lemma {:induction false} EscapedQuotes(s: string)
    ensures forall i :: 0 <= i < |Escape(s)| && Escape(s)[i] == '\'' ==> 0 < i && Escape(s)[i - 1] == '\\'
  {
    if s != [] {
      EscapedQuotes(s[1..]);
      var head: string := if s[0] == '\'' then "\\'" else [s[0]];
      var rest := Escape(s[1..]);
      assert Escape(s) == head + rest;
      forall i | 0 <= i < |head + rest| && (head + rest)[i] == '\''
        ensures 0 < i && (head + rest)[i - 1] == '\\'
      {
        if i >= |head| {
          assert (head + rest)[i] == rest[i - |head|];
          assert (head + rest)[i - 1] == rest[i - |head| - 1];
        }
      }
    }
  }

  /** Escaping leaves a text unchanged exactly when it has no single quote. */
  lemma {:induction false} EscapeUnchanged(s: string)
    ensures Escape(s) == s <==> forall i :: 0 <= i < |s| ==> s[i] != '\''
  {
    if s != [] {
      EscapeUnchanged(s[1..]);
      if s[0] != '\'' {
        assert Escape(s) == [s[0]] + Escape(s[1..]);
        assert s == [s[0]] + s[1..];
        assert (forall i :: 0 <= i < |s| ==> s[i] != '\'') <==> (forall i :: 0 <= i < |s[1..]| ==> s[1..][i] != '\'');
      }
    }
  }

  /** How the query language reads a quoted literal back: a backslash makes the next character literal. */
  function Unescape(s: string): string {
    if s == [] then []
    else if s[0] == '\\' && |s| >= 2 then [s[1]] + Unescape(s[2..])
    else [s[0]] + Unescape(s[1..])
  }

  /** The query literal names exactly the candidate title, for titles without a backslash. */
  lemma {:induction false} EscapeRoundTrip(s: string)
    requires forall i :: 0 <= i < |s| ==> s[i] != '\\'
    ensures Unescape(Escape(s)) == s
  {
    if s != [] {
      EscapeRoundTrip(s[1..]);
      if s[0] == '\'' {
        assert Escape(s) == "\\'" + Escape(s[1..]);
        assert Escape(s)[2..] == Escape(s[1..]);
      } else {
        assert Escape(s) == [s[0]] + Escape(s[1..]);
        assert Escape(s)[1..] == Escape(s[1..]);
      }
    }
  }

  /** The Drive query for non-trashed forms named `title`. */
  function NameQuery(title: string): string {
    "name = '" + Escape(title) + FormFilter
  }

  /** The rest of the query: the literal closes, and only non-trashed forms match. */
  const FormFilter: string := "' and mimeType = 'application/vnd.google-apps.form' and trashed = false"

  /**
   * The n-th title probed: the base itself, then "base (1)", "base (2)", ...; the suffix
   * is always added to the base, never stacked on a suffix.
   */
  function Candidate(base: string, n: nat): (r: string)
    ensures |r| >= |base| && r[..|base|] == base
    ensures r == base <==> n == 0
    ensures n > 0 ==> r[|base|..] == " (" + NatToString(n) + ")"
  {
    if n == 0 then base else base + " (" + NatToString(n) + ")"
  }

  /** No two probes ask for the same title. */
  lemma CandidatesDistinct(base: string, i: nat, j: nat)
    requires i != j
    ensures Candidate(base, i) != Candidate(base, j)
  {
    if i > 0 && j > 0 && Candidate(base, i) == Candidate(base, j) {
      var a, b := NatToString(i), NatToString(j);
      var s := Candidate(base, i);
      assert |a| == |b|;
      assert s[|base| + 2..|base| + 2 + |a|] == a;
      assert (base + " (" + b + ")")[|base| + 2..|base| + 2 + |b|] == b;
      NatToStringInjective(i, j);
    }
  }

  /** If the first `n` candidates are all taken, there are at least `n` existing names. */
  lemma {:induction false} TakenCandidatesBound(base: string, n: nat, existing: set<string>)
    requires forall j: nat :: j < n ==> Candidate(base, j) in existing
    ensures n <= |existing|
  {
    if n > 0 {
      var last := Candidate(base, n - 1);
      var others := existing - {last};
      forall j: nat | j < n - 1 ensures Candidate(base, j) in others {
        CandidatesDistinct(base, j, n - 1);
      }
      TakenCandidatesBound(base, n - 1, others);
      assert existing == others + {last};
    }
  }

  /** Probe `n` is the first free one: its title is not taken and every earlier probe's is. */
  ghost predicate FirstFree(base: string, existing: set<string>, n: nat) {
    Candidate(base, n) !in existing && forall j :: 0 <= j < n ==> Candidate(base, j) in existing
  }

  /** At most one probe is the first free one, so the chosen title is determined by the existing names. */
  lemma FirstFreeUnique(base: string, existing: set<string>, n1: nat, n2: nat)
    requires FirstFree(base, existing, n1) && FirstFree(base, existing, n2)
    ensures n1 == n2
  {
  }

  /** The first free probe is never past the number of existing names. */
  lemma FirstFreeBound(base: string, existing: set<string>, n: nat)
    requires FirstFree(base, existing, n)
    ensures n <= |existing|
  {
    TakenCandidatesBound(base, n, existing);
  }

  /** The Drive queries for probes 0 .. n-1, in order. */
  function ProbeCalls(base: string, n: nat): seq<RemoteCall> {
    if n == 0 then [] else ProbeCalls(base, n - 1) + [DriveList(NameQuery(Candidate(base, n - 1)))]
  }

  /** There are `n` probe calls, the j-th asking for candidate j. */
  lemma {:induction false} ProbeCallsShape(base: string, n: nat)
    ensures |ProbeCalls(base, n)| == n
    ensures forall j :: 0 <= j < n ==> ProbeCalls(base, n)[j] == DriveList(NameQuery(Candidate(base, j)))
  {
    if n > 0 {
      ProbeCallsShape(base, n - 1);
      var earlier := ProbeCalls(base, n - 1);
      assert ProbeCalls(base, n) == earlier + [DriveList(NameQuery(Candidate(base, n - 1)))];
      assert forall j :: 0 <= j < n - 1 ==> ProbeCalls(base, n)[j] == earlier[j];
    }
  }

  /**
   * `_get_unique_title`: probes base, "base (1)", "base (2)", ... in order, one Drive query
   * each, and returns the first title no existing form has. Every earlier probe was taken,
   * so at most |existing| + 1 queries are issued.
   */
  method UniqueTitle(baseTitle: string, existing: set<string>) returns (title: string, probes: seq<RemoteCall>)
    ensures title !in existing
    ensures 1 <= |probes| <= |existing| + 1
    ensures FirstFree(baseTitle, existing, |probes| - 1) && title == Candidate(baseTitle, |probes| - 1)
    ensures probes == ProbeCalls(baseTitle, |probes|)
    ensures baseTitle !in existing ==> title == baseTitle && |probes| == 1
  {
    var currentTitle := baseTitle;
    var counter: nat := 1;
    probes := [];
    while true
      invariant counter >= 1 && counter - 1 <= |existing|
      invariant currentTitle == Candidate(baseTitle, counter - 1)
      invariant forall j :: 0 <= j < counter - 1 ==> Candidate(baseTitle, j) in existing
      invariant probes == ProbeCalls(baseTitle, counter - 1)
      decreases |existing| + 1 - counter
    {
      probes := probes + [DriveList(NameQuery(currentTitle))];
      if currentTitle !in existing {
        ProbeCallsShape(baseTitle, counter);
        return currentTitle, probes;
      }
      TakenCandidatesBound(baseTitle, counter, existing);
      currentTitle := baseTitle + " (" + NatToString(counter) + ")";
      counter := counter + 1;
    }
  }

  /** The probe titles of a quiz need no escaping, so each query names its title verbatim. */
  lemma QuizProbesNeedNoEscape(quiz: Quiz, n: nat)
    ensures Escape(Candidate(QuizTitle(quiz), n)) == Candidate(QuizTitle(quiz), n)
  {
    var t := Candidate(QuizTitle(quiz), n);
    if n > 0 {
      var d := NatToString(n);
      assert QuoteFree(d);
      QuoteFreeConcat(QuizTitle(quiz), " (");
      QuoteFreeConcat(QuizTitle(quiz) + " (", d);
      QuoteFreeConcat(QuizTitle(quiz) + " (" + d, ")");
    }
    assert QuoteFree(t);
    EscapeUnchanged(t);
  }

  // ---------------------------------------------------------------------------
  // Batch update and form creation
  // ---------------------------------------------------------------------------

  /** The item for a question: its display title, required, its points, and its answer key as the one correct answer. */
  function ItemFor(q: Question): Item {
    ShortAnswerItem(FormattedTitle(q), true, q.points, [FormattedAnswerKey(q)])
  }

  /** Where the question items start: after the info update, and after the settings update when there is one. */
  function ItemOffset(usesTemplate: bool): nat {
    if usesTemplate then 1 else 2
  }

  /**
   * The batch `requests` for a quiz: the title-and-description update first, the
   * quiz-settings update next unless a template is used, then one item per question at
   * the question's position.
   */
  ghost predicate BatchLayout(requests: seq<Request>, quiz: Quiz, title: string, usesTemplate: bool) {
    var offset := ItemOffset(usesTemplate);
    && |requests| == offset + |quiz.questions|
    && requests[0] == UpdateFormInfo(title, Description(quiz), "title,description")
    && (!usesTemplate ==> requests[1] == QuizSettings)
    && forall i :: 0 <= i < |quiz.questions| ==> requests[offset + i] == CreateItem(ItemFor(quiz.questions[i]), i)
  }

  /** The layout fixes the request list completely. */
  lemma BatchLayoutUnique(r1: seq<Request>, r2: seq<Request>, quiz: Quiz, title: string, usesTemplate: bool)
    requires BatchLayout(r1, quiz, title, usesTemplate) && BatchLayout(r2, quiz, title, usesTemplate)
    ensures r1 == r2
  {
    var offset := ItemOffset(usesTemplate);
    forall k | 0 <= k < |r1| ensures r1[k] == r2[k] {
      if k >= offset {
        var i := k - offset;
        assert quiz.questions[i] == quiz.questions[i];
        assert r1[offset + i] == CreateItem(ItemFor(quiz.questions[i]), i);
        assert r2[offset + i] == CreateItem(ItemFor(quiz.questions[i]), i);
      }
    }
  }

  /**
   * In a laid-out batch, a settings update occurs exactly when no template is used, and the
   * item requests are exactly the questions' items, the i-th at location index i.
   */
  lemma BatchLayoutContents(requests: seq<Request>, quiz: Quiz, title: string, usesTemplate: bool)
    requires BatchLayout(requests, quiz, title, usesTemplate)
    ensures |requests| == 1 + (if usesTemplate then 0 else 1) + |quiz.questions|
    ensures (exists k :: 0 <= k < |requests| && requests[k].UpdateSettings?) <==> !usesTemplate
    ensures forall k :: 0 <= k < |requests| && requests[k].CreateItem? ==>
      var i := requests[k].index;
      i < |quiz.questions| && k == ItemOffset(usesTemplate) + i &&
      requests[k].item.title == FormattedTitle(quiz.questions[i]) &&
      requests[k].item.required &&
      requests[k].item.pointValue == quiz.questions[i].points &&
      requests[k].item.correctAnswers == [FormattedAnswerKey(quiz.questions[i])]
  {
    var offset := ItemOffset(usesTemplate);
    forall k | 0 <= k < |requests| && k >= offset
      ensures requests[k] == CreateItem(ItemFor(quiz.questions[k - offset]), k - offset)
    {
      assert requests[offset + (k - offset)] == CreateItem(ItemFor(quiz.questions[k - offset]), k - offset);
    }
    if !usesTemplate {
      assert requests[1].UpdateSettings?;
    }
  }

  /**
   * The `requests` list of `create_form`'s batch update: the info update, the settings update
   * when the form was not copied from a template, and one item per question, in question order.
   */
  method BatchRequests(quiz: Quiz, title: string, usesTemplate: bool) returns (requests: seq<Request>)
    ensures BatchLayout(requests, quiz, title, usesTemplate)
  {
    requests := [UpdateFormInfo(title, Description(quiz), "title,description")];
    if !usesTemplate {
      requests := requests + [QuizSettings];
    }
    ghost var offset := |requests|;
    var index := 0;
    while index < |quiz.questions|
      invariant 0 <= index <= |quiz.questions|
      invariant offset == ItemOffset(usesTemplate) && |requests| == offset + index
      invariant requests[0] == UpdateFormInfo(title, Description(quiz), "title,description")
      invariant !usesTemplate ==> requests[1] == QuizSettings
      invariant forall i :: 0 <= i < index ==> requests[offset + i] == CreateItem(ItemFor(quiz.questions[i]), i)
    {
      var q := quiz.questions[index];
      requests := requests + [CreateItem(ItemFor(q), index)];
      index := index + 1;
    }
  }

  /** "https://docs.google.com/forms/d/{id}/edit" */
  function FormUrl(formId: string): (r: string)
    ensures FormIdOfUrl(r) == Some(formId)
  {
    var url := FormsPrefix + formId + "/edit";
    assert url[..|FormsPrefix|] == FormsPrefix;
    assert url[|url| - 5..] == "/edit";
    assert url[|FormsPrefix|..|url| - 5] == formId;
    url
  }

  /** Where every form's edit URL starts. */
  const FormsPrefix: string := "https://docs.google.com/forms/d/"

  /** The form id read back from an edit URL. */
  function FormIdOfUrl(url: string): Option<string> {
    var prefix := FormsPrefix;
    if |url| >= |prefix| + 5 && url[..|prefix|] == prefix && url[|url| - 5..] == "/edit"
    then Some(url[|prefix|..|url| - 5])
    else None
  }

  /** The call that creates the form: a copy of the template, or a blank form whose title is also its file name. */
  function CreationCall(templateFormId: Option<string>, title: string): RemoteCall {
    if UsesTemplate(templateFormId) then DriveCopy(templateFormId.value, title) else FormsCreate(title, title)
  }

  /**
   * `create_form`: probes for a unique title, creates exactly one form under it, sends one
   * batch update against the id the service issued, and returns that form's edit URL.
   */
  method CreateForm(quiz: Quiz, templateFormId: Option<string>, existing: set<string>, issuedFormId: string)
    returns (calls: seq<RemoteCall>, url: string)
    ensures url == FormUrl(issuedFormId)
    ensures 3 <= |calls| <= |existing| + 3
    ensures var n := |calls| - 3;
            var title := Candidate(QuizTitle(quiz), n);
      && FirstFree(QuizTitle(quiz), existing, n)
      && calls[..n + 1] == ProbeCalls(QuizTitle(quiz), n + 1)
      && calls[n + 1] == CreationCall(templateFormId, title)
      && calls[n + 2].FormsBatchUpdate? && calls[n + 2].formId == issuedFormId
      && BatchLayout(calls[n + 2].requests, quiz, title, UsesTemplate(templateFormId))
  {
    var uniqueTitle, probes := UniqueTitle(QuizTitle(quiz), existing);

    var formId := issuedFormId;
    var creation := CreationCall(templateFormId, uniqueTitle);

    var requests := BatchRequests(quiz, uniqueTitle, UsesTemplate(templateFormId));
    calls := probes + [creation, FormsBatchUpdate(formId, requests)];
    ghost var n := |calls| - 3;
    assert n + 1 == |probes| && calls[..n + 1] == probes;
    assert calls[n + 1] == creation && calls[n + 2] == FormsBatchUpdate(formId, requests);
    url := FormUrl(formId);
  }

  /** `link_responses`: not supported by the Forms API, so it issues no call at all. */
  method LinkResponses(formId: string, spreadsheetId: string) returns (calls: seq<RemoteCall>)
    ensures calls == []
  {
    calls := [];
  }
}
