/**
 * The symptom log page: records appended and deleted by id, the records of
 * the last so many days, the dashboard's counts over them and the 30-day
 * text report. Dates are millisecond timestamps.
 */
module Symptoms {
  import opened Text
  import Seqs

  datatype Symptom = Symptom(
    id: string, name: string, severity: int, frequency: string, duration: string, notes: string, date: int)

  /** The entry form; 0 stands for a severity left unset. */
  datatype Form = Form(name: string, severity: int, frequency: string, duration: string, notes: string)

  /** The form as the page opens it and resets it. */
  const BlankForm: Form := Form("", 1, "occasional", "", "")

  datatype Page = Page(symptoms: seq<Symptom>, form: Form)

  /**
   * `handleSaveSymptom`: nothing without a name. Otherwise one record is
   * appended, stamped `stamp` and dated `now`, with severity 1 and frequency
   * "occasional" standing in for unset ones, and the form is reset.
   */
  function SaveSymptom(p: Page, stamp: string, now: int): (r: Page)
    ensures p.form.name == "" ==> r == p
    ensures p.form.name != "" ==>
      r.form == BlankForm && |r.symptoms| == |p.symptoms| + 1 && r.symptoms[..|p.symptoms|] == p.symptoms
    ensures p.form.name != "" ==>
      var s := r.symptoms[|p.symptoms|];
      s.id == stamp && s.name == p.form.name && s.date == now &&
      s.duration == p.form.duration && s.notes == p.form.notes &&
      (p.form.severity != 0 ==> s.severity == p.form.severity) && (p.form.severity == 0 ==> s.severity == 1) &&
      (p.form.frequency != "" ==> s.frequency == p.form.frequency) && (p.form.frequency == "" ==> s.frequency == "occasional")
  {
    if p.form.name == "" then p
    else
      var f := p.form;
      var s := Symptom(stamp, f.name, if f.severity != 0 then f.severity else 1,
                       if f.frequency != "" then f.frequency else "occasional", f.duration, f.notes, now);
      assert (p.symptoms + [s])[..|p.symptoms|] == p.symptoms;
      Page(p.symptoms + [s], BlankForm)
  }

  /** `handleDeleteSymptom`: every record with that id goes; the others keep their order. */
  function DeleteSymptom(log: seq<Symptom>, id: string): (r: seq<Symptom>)
    ensures |r| <= |log|
    ensures forall s :: s in r <==> s in log && s.id != id
    ensures forall i :: 0 <= i < |r| ==> r[i].id != id
    ensures Seqs.Subsequence(r, log)
    ensures r == Seqs.Filter(log, (s: Symptom) => s.id != id)
  {
    if log == [] then []
    else
      var rest := DeleteSymptom(log[1..], id);
      Seqs.SubsequenceCons(log, log[0].id != id, rest);
      (if log[0].id != id then [log[0]] else []) + rest
  }

  /** Deleting keeps the log unchanged when no record has that id. */
  lemma {:induction false} DeleteAbsent(log: seq<Symptom>, id: string)
    requires forall i :: 0 <= i < |log| ==> log[i].id != id
    ensures DeleteSymptom(log, id) == log
  {
    if log != [] {
      DeleteAbsent(log[1..], id);
      assert log == [log[0]] + log[1..];
    }
  }

  /** `getFilteredSymptoms`: the records dated at or after `start`, in order. */
  function Since(log: seq<Symptom>, start: int): (r: seq<Symptom>)
    ensures |r| <= |log|
    ensures forall s :: s in r <==> s in log && s.date >= start
    ensures Seqs.Subsequence(r, log)
    ensures r == Seqs.Filter(log, (s: Symptom) => s.date >= start)
  {
    if log == [] then []
    else
      var rest := Since(log[1..], start);
      Seqs.SubsequenceCons(log, log[0].date >= start, rest);
      (if log[0].date >= start then [log[0]] else []) + rest
  }

  /** A later start keeps a part of what an earlier one keeps. */
  lemma {:induction false} SinceNarrows(log: seq<Symptom>, early: int, late: int)
    requires early <= late
    ensures Since(Since(log, early), late) == Since(log, late)
  {
    if log != [] {
      SinceNarrows(log[1..], early, late);
      var rest := Since(log[1..], early);
      if log[0].date >= early {
        assert Since(log, early) == [log[0]] + rest;
        assert ([log[0]] + rest)[0] == log[0] && ([log[0]] + rest)[1..] == rest;
        assert Since([log[0]] + rest, late) == (if log[0].date >= late then [log[0]] else []) + Since(rest, late);
      } else {
        assert Since(log, early) == rest;
      }
    }
  }

  function Names(log: seq<Symptom>): (r: seq<string>)
    ensures |r| == |log| && forall i :: 0 <= i < |log| ==> r[i] == log[i].name
  {
    seq(|log|, i requires 0 <= i < |log| => log[i].name)
  }

  function Severities(log: seq<Symptom>): (r: seq<int>)
    ensures |r| == |log| && forall i :: 0 <= i < |log| ==> r[i] == log[i].severity
  {
    seq(|log|, i requires 0 <= i < |log| => log[i].severity)
  }

  /** The numbers the dashboard shows (the average severity, a decimal, is not modelled). */
  datatype Metrics = Metrics(
    totalSymptoms: nat, uniqueSymptoms: nat, mostFrequent: string,
    symptomFrequency: seq<(string, nat)>, severityDistribution: seq<(int, nat)>)

  /**
   * The most frequent name, as the dashboard finds it: the first entry of the
   * tally sorted by count, largest first; "None" for no records.
   */
  function MostFrequent(names: seq<string>): (m: string)
    ensures names == [] ==> m == "None"
    ensures names != [] ==> m in names && forall x :: x in names ==> Seqs.Count(names, x) <= Seqs.Count(names, m)
  {
    if names == [] then "None"
    else
      MostFrequentIsMax(names);
      Seqs.SortDesc(Seqs.Tally(names), Seqs.Second)[0].0
  }

  lemma MostFrequentIsMax(names: seq<string>)
    requires names != []
    ensures |Seqs.SortDesc(Seqs.Tally(names), Seqs.Second)| > 0
    ensures var top := Seqs.SortDesc(Seqs.Tally(names), Seqs.Second)[0].0;
      top in names && forall x :: x in names ==> Seqs.Count(names, x) <= Seqs.Count(names, top)
  {
    var entries := Seqs.Tally(names);
    var sorted := Seqs.SortDesc(entries, Seqs.Second);
    assert names[0] in Seqs.Distinct(names);
    assert |sorted| > 0;
    Seqs.SortDescSorted(entries, Seqs.Second);
    assert sorted[0] in multiset(entries);
    var t :| 0 <= t < |entries| && entries[t] == sorted[0];
    var top := sorted[0].0;
    assert top == Seqs.Distinct(names)[t] && sorted[0].1 == Seqs.Count(names, top);
    forall x | x in names ensures Seqs.Count(names, x) <= Seqs.Count(names, top) {
      var i :| 0 <= i < |Seqs.Distinct(names)| && Seqs.Distinct(names)[i] == x;
      assert entries[i] in multiset(sorted);
      var j :| 0 <= j < |sorted| && sorted[j] == entries[i];
      if j > 0 {
        assert Seqs.Second(sorted[0]) >= Seqs.Second(sorted[j]);
      }
    }
  }

  /** `new Set(xs).size` is the number of distinct elements. */
  lemma DistinctSize(xs: seq<string>)
    ensures |set x | x in xs| == |Seqs.Distinct(xs)|
  {
    var d := Seqs.Distinct(xs);
    assert (set x | x in xs) == (set x | x in d);
    NoDuplicatesSize(d);
  }

  lemma {:induction false} NoDuplicatesSize(d: seq<string>)
    requires Seqs.NoDuplicates(d)
    ensures |set x | x in d| == |d|
  {
    if d != [] {
      var init := d[..|d| - 1];
      assert Seqs.NoDuplicates(init);
      NoDuplicatesSize(init);
      assert (set x | x in d) == (set x | x in init) + {d[|d| - 1]};
      assert d[|d| - 1] !in init;
    }
  }

  /**
   * `getDashboardMetrics(days)`, over the records since `start`: the count,
   * the number of distinct names, the most frequent name and the two
   * tallies, whose counts each add up to the count.
   */
  function DashboardMetrics(log: seq<Symptom>, start: int): (m: Metrics)
    ensures var recent := Since(log, start);
      m.totalSymptoms == |recent| && m.uniqueSymptoms == |set x | x in Names(recent)| &&
      Seqs.SumSeconds(m.symptomFrequency) == m.totalSymptoms &&
      Seqs.SumSeconds(m.severityDistribution) == m.totalSymptoms
    ensures var recent := Since(log, start);
      (m.totalSymptoms == 0 ==> m.mostFrequent == "None") &&
      (m.totalSymptoms > 0 ==>
         m.mostFrequent in Names(recent) &&
         forall x :: x in Names(recent) ==> Seqs.Count(Names(recent), x) <= Seqs.Count(Names(recent), m.mostFrequent))
  {
    var recent := Since(log, start);
    var names := Names(recent);
    DistinctSize(names);
    Seqs.TallyTotal(names);
    Seqs.TallyTotal(Severities(recent));
    Metrics(|recent|, |Seqs.Distinct(names)|, MostFrequent(names), Seqs.Tally(names), Seqs.Tally(Severities(recent)))
  }

  function DateOf(s: Symptom): int {
    s.date
  }

  /** The summary line of one name: "time" for a single record, "times" otherwise. */
  function SummaryLine(e: (string, nat)): (line: string)
    ensures e.1 > 1 ==> line == "- " + e.0 + ": " + NatToString(e.1) + " times\n"
    ensures e.1 <= 1 ==> line == "- " + e.0 + ": " + NatToString(e.1) + " time\n"
  {
    "- " + e.0 + ": " + NatToString(e.1) + " time" + (if e.1 > 1 then "s" else "") + "\n"
  }

  function SummaryLines(entries: seq<(string, nat)>): string {
    if entries == [] then "" else SummaryLines(entries[..|entries| - 1]) + SummaryLine(entries[|entries| - 1])
  }

  /** One record of the detailed log; `dateText` is `toLocaleDateString` on a timestamp. */
  function DetailBlock(s: Symptom, dateText: int -> string): string {
    "Date: " + dateText(s.date) + "\n" +
    "Symptom: " + s.name + "\n" +
    "Severity: " + IntToString(s.severity) + "/5\n" +
    "Frequency: " + s.frequency + "\n" +
    "Duration: " + s.duration + "\n" +
    "Notes: " + (if s.notes != "" then s.notes else "None") + "\n" +
    "-------------------\n\n"
  }

  function Details(recent: seq<Symptom>, dateText: int -> string): string {
    if recent == [] then "" else Details(recent[..|recent| - 1], dateText) + DetailBlock(recent[|recent| - 1], dateText)
  }

  /** The records of the report: those since `cutoff`, newest first. */
  function Recent(log: seq<Symptom>, cutoff: int): seq<Symptom> {
    Seqs.SortDesc(Since(log, cutoff), DateOf)
  }

  /** The summary entries of the report: the tally of the names, largest count first. */
  function Summary(recent: seq<Symptom>): seq<(string, nat)> {
    Seqs.SortDesc(Seqs.Tally(Names(recent)), Seqs.Second)
  }

  function ReportHead(today: string, periodStart: string, total: nat): string {
    "30-Day Symptom Report\n" + "===================\n\n" +
    "Generated on: " + today + "\n" +
    "Period: " + periodStart + " to " + today + "\n\n" +
    "Summary\n" + "-------\n" +
    "Total Symptoms Logged: " + NatToString(total) + "\n" +
    "Frequency by Symptom:\n"
  }

  /** The text `generateReport` downloads. */
  function ReportText(log: seq<Symptom>, cutoff: int, today: string, periodStart: string, dateText: int -> string): string {
    var recent := Recent(log, cutoff);
    ReportHead(today, periodStart, |recent|) + SummaryLines(Summary(recent)) + "\n" +
    "Detailed Log\n" + "-----------\n\n" + Details(recent, dateText)
  }

  /**
   * The report's records are exactly those since the cutoff, newest first,
   * and records of the same date keep their logged order.
   */
  lemma ReportRecords(log: seq<Symptom>, cutoff: int, date: int)
    ensures multiset(Recent(log, cutoff)) == multiset(Since(log, cutoff))
    ensures Seqs.SortedDesc(Recent(log, cutoff), DateOf)
    ensures Seqs.WithKey(Recent(log, cutoff), DateOf, date) == Seqs.WithKey(Since(log, cutoff), DateOf, date)
  {
    Seqs.SortDescSorted(Since(log, cutoff), DateOf);
    Seqs.SortDescStable(Since(log, cutoff), DateOf, date);
  }

  /**
   * The summary lists every name once, largest count first, with counts that
   * add up to the total printed above them.
   */
  lemma ReportSummary(recent: seq<Symptom>)
    ensures multiset(Summary(recent)) == multiset(Seqs.Tally(Names(recent)))
    ensures Seqs.SortedDesc(Summary(recent), Seqs.Second)
    ensures Seqs.SumSeconds(Summary(recent)) == |recent|
  {
    var entries := Seqs.Tally(Names(recent));
    Seqs.SortDescSorted(entries, Seqs.Second);
    Seqs.TallyTotal(Names(recent));
    SumSecondsSort(entries);
  }

  lemma {:induction false} SumSecondsInsert(x: (string, nat), s: seq<(string, nat)>)
    ensures Seqs.SumSeconds(Seqs.InsertDesc(x, s, Seqs.Second)) == x.1 + Seqs.SumSeconds(s)
  {
    if s != [] && Seqs.Second(s[0]) >= Seqs.Second(x) {
      SumSecondsInsert(x, s[1..]);
      var rest := Seqs.InsertDesc(x, s[1..], Seqs.Second);
      assert ([s[0]] + rest)[0] == s[0] && ([s[0]] + rest)[1..] == rest;
    }
  }

  /** Sorting a tally keeps the sum of its counts. */
  lemma {:induction false} SumSecondsSort(s: seq<(string, nat)>)
    ensures Seqs.SumSeconds(Seqs.SortDesc(s, Seqs.Second)) == Seqs.SumSeconds(s)
  {
    if s != [] {
      var init, x := s[..|s| - 1], s[|s| - 1];
      SumSecondsSort(init);
      SumSecondsInsert(x, Seqs.SortDesc(init, Seqs.Second));
      SumSecondsSplit(init, [x]);
      assert s == init + [x];
    }
  }

  lemma {:induction false} SumSecondsSplit(a: seq<(string, nat)>, b: seq<(string, nat)>)
    ensures Seqs.SumSeconds(a + b) == Seqs.SumSeconds(a) + Seqs.SumSeconds(b)
  {
    if a == [] {
      assert a + b == b;
    } else {
      assert (a + b)[0] == a[0] && (a + b)[1..] == a[1..] + b;
      SumSecondsSplit(a[1..], b);
    }
  }

  /**
   * The state of the counting loop after the names of `s`: the names met so
   * far in first-occurrence order, and `counts[name] = (counts[name] || 0) + 1`.
   */
  function Scan(s: seq<string>): (seq<string>, map<string, nat>)
    decreases |s|
  {
    if s == [] then ([], map[])
    else
      var (order, counts) := Scan(s[..|s| - 1]);
      var x := s[|s| - 1];
      (if x in counts then order else order + [x], counts[x := if x in counts then counts[x] + 1 else 1])
  }

  /** The loop's order is the distinct names, and its map counts each of them. */
  lemma {:induction false} ScanCounts(s: seq<string>)
    ensures Scan(s).0 == Seqs.Distinct(s)
    ensures forall k :: k in Scan(s).1 <==> k in s
    ensures forall k :: k in Scan(s).1 ==> Scan(s).1[k] == Seqs.Count(s, k)
    decreases |s|
  {
    if s != [] {
      var init := s[..|s| - 1];
      var x := s[|s| - 1];
      assert s == init + [x];
      ScanCounts(init);
      Seqs.DistinctSnoc(init, x);
      forall k ensures Seqs.Count(s, k) == Seqs.Count(init, k) + if x == k then 1 else 0 {
        Seqs.CountSnoc(init, x, k);
      }
    }
  }

  /** Listing the counted names in first-occurrence order gives the tally. */
  lemma ScanTally(names: seq<string>)
    ensures forall j :: 0 <= j < |Scan(names).0| ==> Scan(names).0[j] in Scan(names).1
    ensures seq(|Scan(names).0|, j requires 0 <= j < |Scan(names).0| => (Scan(names).0[j], Scan(names).1[Scan(names).0[j]]))
            == Seqs.Tally(names)
  {
    ScanCounts(names);
  }

  /** One step of the counting loop, from the first `i` names to the first `i + 1`. */
  lemma ScanStep(names: seq<string>, i: int)
    requires 0 <= i < |names|
    ensures Scan(names[..i + 1]) ==
      var (order, counts) := Scan(names[..i]);
      (if names[i] in counts then order else order + [names[i]],
       counts[names[i] := if names[i] in counts then counts[names[i]] + 1 else 1])
  {
    assert names[..i + 1][..i] == names[..i];
  }

  /** The counting loop of the report: one pass, a count per name, names in order of first occurrence. */
  method CountNames(names: seq<string>) returns (entries: seq<(string, nat)>)
    ensures entries == Seqs.Tally(names)
  {
    var counts: map<string, nat> := map[];
    var order: seq<string> := [];
    var i := 0;
    while i < |names|
      invariant i <= |names|
      invariant (order, counts) == Scan(names[..i])
    {
      var name := names[i];
      ScanStep(names, i);
      if name !in counts {
        order := order + [name];
      }
      counts := counts[name := if name in counts then counts[name] + 1 else 1];
      i := i + 1;
    }
    assert names[..i] == names;
    ScanTally(names);
    entries := seq(|order|, j requires 0 <= j < |order| => (order[j], counts[order[j]]));
  }

  /**
   * `generateReport`: the records since the cutoff, newest first; their
   * names counted in one pass, the counts listed largest first, then one
   * block per record.
   */
  method GenerateReport(log: seq<Symptom>, cutoff: int, today: string, periodStart: string, dateText: int -> string)
    returns (report: string)
    ensures report == ReportText(log, cutoff, today, periodStart, dateText)
  {
    var recent := Seqs.SortDesc(Since(log, cutoff), DateOf);
    report := ReportHead(today, periodStart, |recent|);
    var entries := CountNames(Names(recent));
    var sorted := Seqs.SortDesc(entries, Seqs.Second);
    var lines := SummaryText(sorted);
    var blocks := DetailText(recent, dateText);
    report := report + lines + "\n" + "Detailed Log\n" + "-----------\n\n" + blocks;
  }

  /** The summary loop: one line per entry, in order. */
  method SummaryText(sorted: seq<(string, nat)>) returns (text: string)
    ensures text == SummaryLines(sorted)
  {
    text := "";
    var j := 0;
    while j < |sorted|
      invariant j <= |sorted|
      invariant text == SummaryLines(sorted[..j])
    {
      assert sorted[..j + 1][..j] == sorted[..j];
      text := text + SummaryLine(sorted[j]);
      j := j + 1;
    }
    assert sorted[..j] == sorted;
  }

  /** The detailed-log loop: one block per record, in order. */
  method DetailText(recent: seq<Symptom>, dateText: int -> string) returns (text: string)
    ensures text == Details(recent, dateText)
  {
    text := "";
    var k := 0;
    while k < |recent|
      invariant k <= |recent|
      invariant text == Details(recent[..k], dateText)
    {
      assert recent[..k + 1][..k] == recent[..k];
      text := text + DetailBlock(recent[k], dateText);
      k := k + 1;
    }
    assert recent[..k] == recent;
  }
}
