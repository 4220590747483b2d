/**
 * The AI doctor chat page: the recording timer's text, the guard and the
 * context window of a sent message, choosing symptoms for a report, sending
 * the report, and checking an uploaded file.
 */
module AiChat {
  import opened Wrappers
  import opened Text
  import Seqs
  import Translation

  /** `formatDuration`: whole minutes, a colon, and the seconds as two digits. */
  function FormatDuration(seconds: nat): (r: string)
    ensures |Split(r, ':')| == 2
  {
    var mins := NatToString(seconds / 60);
    var secs := PadStart2(NatToString(seconds % 60));
    SplitAtColon(mins, secs);
    mins + ":" + secs
  }

  lemma SplitAtColon(a: string, b: string)
    requires AllDigits(a) && AllDigits(b)
    ensures Split(a + ":" + b, ':') == [a, b]
  {
    var s := a + ":" + b;
    NoColon(a);
    NoColon(b);
    IndexOfAbsent(a, ':', ":" + b);
    assert s[..|a|] == a;
    assert s[|a| + 1..] == b;
    IndexOfNone(b, ':');
    assert Split(b, ':') == [b];
  }

  lemma NoColon(a: string)
    requires AllDigits(a)
    ensures ':' !in a
  {
  }

  lemma {:induction false} IndexOfAbsent(a: string, c: char, rest: string)
    requires c !in a && |rest| > 0 && rest[0] == c
    ensures IndexOf(a + rest, c) == |a|
  {
    if a != [] {
      assert (a + rest)[1..] == a[1..] + rest;
      IndexOfAbsent(a[1..], c, rest);
    }
  }

  lemma {:induction false} IndexOfNone(a: string, c: char)
    requires c !in a
    ensures IndexOf(a, c) == |a|
  {
    if a != [] {
      IndexOfNone(a[1..], c);
    }
  }

  /** Two-digit seconds read back as the number they print. */
  lemma PaddedValue(n: nat)
    requires n < 60
    ensures AllDigits(PadStart2(NatToString(n)))
    ensures ParseDigits(PadStart2(NatToString(n))) == Some(n)
  {
    ParseNatToString(n);
    var d := NatToString(n);
    var p := PadStart2(d);
    if |d| < 2 {
      assert |d| == 1;
      assert p == "0" + d;
      assert p[..|p| - 1] == "0";
      assert "0"[..0] == [];
      assert DigitsValue("0") == 0;
      assert d[..0] == [];
      assert DigitsValue(d) == DigitValue(d[0]);
    }
  }

  /** The timer text reads back as the duration: minutes times sixty plus seconds, seconds under a minute. */
  lemma FormatDurationRoundTrip(seconds: nat)
    ensures var parts := Split(FormatDuration(seconds), ':');
            AllDigits(parts[0]) && AllDigits(parts[1]) &&
            ParseDigits(parts[0]).Some? && ParseDigits(parts[1]).Some? &&
            ParseDigits(parts[0]).value * 60 + ParseDigits(parts[1]).value == seconds &&
            ParseDigits(parts[1]).value < 60
  {
    var mins := NatToString(seconds / 60);
    var secs := PadStart2(NatToString(seconds % 60));
    ParseNatToString(seconds / 60);
    PaddedValue(seconds % 60);
    SplitAtColon(mins, secs);
  }

  datatype Role = User | Assistant

  datatype Message = Message(role: Role, content: string, language: string)

  /** A sent message: the conversation with it added and the messages posted to the model after the system prompt. */
  datatype Submitted = Submitted(messages: seq<Message>, request: seq<Message>)

  /**
   * `handleSubmit`: blank input is ignored; otherwise the message joins the
   * conversation and the request carries the five messages before it, then
   * the message itself.
   */
  function Submit(messages: seq<Message>, input: string, code: string): (r: Option<Submitted>)
    ensures r.None? <==> AllSpace(input)
    ensures r.Some? ==> r.value.messages == messages + [Message(User, input, code)]
    ensures r.Some? ==> 1 <= |r.value.request| <= 6 && r.value.request[|r.value.request| - 1] == Message(User, input, "")
    ensures r.Some? ==> 1 <= |r.value.request| && r.value.request[..|r.value.request| - 1] == Context(messages)
  {
    if Trim(input) == "" then None
    else
      var request := Context(messages) + [Message(User, input, "")];
      assert request[..|request| - 1] == Context(messages);
      Some(Submitted(messages + [Message(User, input, code)], request))
  }

  /** The context sent with a message: at most the last five earlier messages, in order, with role and content only. */
  function Context(messages: seq<Message>): (r: seq<Message>)
    ensures |r| == if |messages| < 5 then |messages| else 5
    ensures forall i :: 0 <= i < |r| ==>
      r[i] == Message(messages[|messages| - |r| + i].role, messages[|messages| - |r| + i].content, "")
  {
    var last := Seqs.LastN(messages, 5);
    seq(|last|, i requires 0 <= i < |last| => Message(last[i].role, last[i].content, ""))
  }

  /** `handleSymptomSelect`: a chosen symptom is unchosen; another is chosen, at the end. */
  function Toggle(selected: seq<string>, id: string): (r: seq<string>)
    ensures id in selected ==> id !in r
    ensures id !in selected ==> r == selected + [id]
    ensures forall x :: x != id ==> (x in r <==> x in selected)
    ensures id in selected ==>
      Seqs.Subsequence(r, selected) && forall x :: Seqs.Count(r, x) == if x == id then 0 else Seqs.Count(selected, x)
  {
    if id in selected then
      forall x ensures x in Seqs.Remove(selected, id) <==> x in selected && x != id {
        Seqs.RemoveMembership(selected, id, x);
      }
      Seqs.RemoveCount(selected, id);
      Seqs.Remove(selected, id)
    else selected + [id]
  }

  /** Choosing and unchoosing a symptom not chosen before restores the list. */
  lemma ToggleTwiceAbsent(selected: seq<string>, id: string)
    requires id !in selected
    ensures Toggle(Toggle(selected, id), id) == selected
  {
    assert id in selected + [id];
    Seqs.RemoveSnoc(selected, id);
    Seqs.RemoveAbsent(selected, id);
  }

  /** Unchoosing and choosing again a chosen symptom moves it to the end, once. */
  lemma ToggleTwiceChosen(selected: seq<string>, id: string)
    requires id in selected
    ensures Toggle(Toggle(selected, id), id) == Seqs.Remove(selected, id) + [id]
  {
  }

  /** Toggling twice keeps the same chosen symptoms, so the description comes back the same. */
  lemma ToggleTwiceSameDescription(selected: seq<string>, id: string, code: string)
    ensures Description(Toggle(Toggle(selected, id), id), code) == Description(selected, code)
  {
    var twice := Toggle(Toggle(selected, id), id);
    assert forall x :: x in twice <==> x in selected;
    SameChoiceSameDescription(twice, selected, code);
  }

  function Descriptions(symptoms: seq<Translation.Symptom>): seq<string> {
    if symptoms == [] then [] else [symptoms[0].description] + Descriptions(symptoms[1..])
  }

  function Captions(symptoms: seq<Translation.Symptom>): seq<string> {
    if symptoms == [] then [] else [symptoms[0].caption] + Captions(symptoms[1..])
  }

  /** The chosen symptoms in the order of the symptom table. */
  function Chosen(selected: seq<string>, code: string): (r: seq<Translation.Symptom>)
    ensures forall s :: s in r <==> s in Translation.LocalizedSymptoms(code) && s.id in selected
    ensures Seqs.Subsequence(r, Translation.LocalizedSymptoms(code))
  {
    var table := Translation.LocalizedSymptoms(code);
    Seqs.FilterSubsequence(table, (x: Translation.Symptom) => x.id in selected);
    forall s ensures s in Seqs.Filter(table, (x: Translation.Symptom) => x.id in selected) <==> s in table && s.id in selected {
      Seqs.FilterMembership(table, (x: Translation.Symptom) => x.id in selected, s);
    }
    Seqs.Filter(table, (x: Translation.Symptom) => x.id in selected)
  }

  /** The report text a choice writes: the chosen symptoms' descriptions, in table order, joined by ". ". */
  function Description(selected: seq<string>, code: string): string {
    Join(Descriptions(Chosen(selected, code)), ". ")
  }

  lemma SameChoiceSameDescription(a: seq<string>, b: seq<string>, code: string)
    requires forall x :: x in a <==> x in b
    ensures Description(a, code) == Description(b, code)
  {
    var table := Translation.LocalizedSymptoms(code);
    Seqs.FilterExtensional(table, (x: Translation.Symptom) => x.id in a, (x: Translation.Symptom) => x.id in b);
  }

  /** The report dialog: the text typed or written by a choice, and the symptoms chosen. */
  datatype ReportForm = ReportForm(reportText: string, selected: seq<string>)

  /** Choosing a symptom updates the choice and rewrites the report text from it. */
  function SelectSymptom(form: ReportForm, id: string, code: string): (r: ReportForm)
    ensures r.selected == Toggle(form.selected, id)
    ensures r.reportText == Description(r.selected, code)
  {
    var selected := Toggle(form.selected, id);
    ReportForm(Description(selected, code), selected)
  }

  const EmptyForm: ReportForm := ReportForm("", [])

  /** The opening of the request a report sends. */
  const AnalysisRequest: string := "Please analyze these symptoms and provide a simple explanation:\n\n"

  /** A sent report: the conversation with the request added, and the cleared form. */
  datatype Analysed = Analysed(messages: seq<Message>, form: ReportForm)

  /**
   * `analyzeReport`: refused when the text is blank and nothing is chosen;
   * otherwise the request names the chosen symptoms' labels and the text,
   * and the form is always cleared afterwards.
   */
  function AnalyzeReport(form: ReportForm, messages: seq<Message>, code: string): (r: Option<Analysed>)
    ensures r.None? <==> AllSpace(form.reportText) && form.selected == []
    ensures r.Some? ==> r.value.form == EmptyForm && |r.value.messages| == |messages| + 1
    ensures r.Some? ==> r.value.messages[..|messages|] == messages
    ensures r.Some? ==>
      var m := r.value.messages[|messages|];
      m.role == User && m.language == code &&
      m.content == AnalysisRequest + ChosenCaptions(form.selected, code) + "\n" + form.reportText
  {
    if Trim(form.reportText) == "" && |form.selected| == 0 then None
    else
      var content := AnalysisRequest + ChosenCaptions(form.selected, code) + "\n" + form.reportText;
      var added := messages + [Message(User, content, code)];
      assert added[..|messages|] == messages;
      Some(Analysed(added, EmptyForm))
  }

  /** The chosen symptoms' captions in table order, joined by ", "; nothing when none is chosen. */
  function ChosenCaptions(selected: seq<string>, code: string): string {
    if |selected| > 0 then Join(Captions(Chosen(selected, code)), ", ") else ""
  }

  /** What the upload check decides. */
  datatype FileCheck = WrongType | TooLarge | Accepted

  const ValidTypes: seq<string> := ["application/pdf", "image/jpeg", "image/png", "image/webp"]

  /** `validateAndUploadFile`: the type is checked first, then a limit of ten megabytes. */
  function ValidateFile(mime: string, size: int): (r: FileCheck)
    ensures mime !in ValidTypes ==> r == WrongType
    ensures r == Accepted <==> mime in ValidTypes && size <= 10 * 1024 * 1024
    ensures r == TooLarge <==> mime in ValidTypes && size > 10485760
  {
    if mime !in ValidTypes then WrongType
    else if size > 10 * 1024 * 1024 then TooLarge
    else Accepted
  }
}
