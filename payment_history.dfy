/**
 * The payment history table: the filter pipeline the page re-runs whenever
 * the payments or the filters change, the totals shown above the table and
 * the badge given to each status. Creation times are millisecond timestamps.
 */
module PaymentHistory {
  import opened Wrappers
  import opened Text
  import Seqs

  /** A populated doctor or patient reference. */
  datatype Party = Party(firstName: string, lastName: string, specialization: string)

  datatype Payment = Payment(
    id: string, amount: int, kind: string, status: string, transactionId: string,
    createdAt: int, doctor: Option<Party>, patient: Option<Party>)

  /** `${party?.firstName} ${party?.lastName}`: a missing party prints as "undefined undefined". */
  function FullName(party: Option<Party>): string {
    if party.None? then "undefined undefined" else party.value.firstName + " " + party.value.lastName
  }

  /** The searched text: transaction id, the other party's name, the specialization and the amount. */
  function SearchText(p: Payment, userType: string): string {
    var counterpart := if userType == "user" then FullName(p.doctor) else FullName(p.patient);
    // `join` prints a missing specialization as the empty string
    var specialization := if p.doctor.None? then "" else p.doctor.value.specialization;
    Lower(Join([p.transactionId, counterpart, specialization, IntToString(p.amount)], " "))
  }

  predicate PassSearch(p: Payment, term: string, userType: string) {
    term == "" || Includes(SearchText(p, userType), Lower(term))
  }

  predicate PassStatus(p: Payment, status: string) {
    status == "all" || p.status == status
  }

  predicate PassKind(p: Payment, kind: string) {
    kind == "all" || p.kind == kind
  }

  /** The time a week, a month, a quarter or a year before now; the calendar arithmetic is supplied. */
  datatype Calendar = Calendar(now: int, weekAgo: int, monthAgo: int, quarterAgo: int, yearAgo: int)

  /** The start of the date range; an unknown range starts now. */
  function Cutoff(range: string, cal: Calendar): int {
    if range == "week" then cal.weekAgo
    else if range == "month" then cal.monthAgo
    else if range == "quarter" then cal.quarterAgo
    else if range == "year" then cal.yearAgo
    else cal.now
  }

  predicate PassDate(p: Payment, range: string, cal: Calendar) {
    range == "all" || p.createdAt >= Cutoff(range, cal)
  }

  datatype Filters = Filters(search: string, status: string, kind: string, range: string)

  /** A payment the page shows under the given filters: it passes every stage. */
  predicate Shown(p: Payment, f: Filters, userType: string, cal: Calendar) {
    PassSearch(p, f.search, userType) && PassStatus(p, f.status) && PassKind(p, f.kind) && PassDate(p, f.range, cal)
  }

  function SearchStage(ps: seq<Payment>, term: string, userType: string): (r: seq<Payment>)
    ensures r == Seqs.Filter(ps, p => PassSearch(p, term, userType))
  {
    if term != "" then Seqs.Filter(ps, p => PassSearch(p, term, userType))
    else
      Seqs.FilterKeepsAll(ps, p => PassSearch(p, term, userType));
      ps
  }

  function StatusStage(ps: seq<Payment>, status: string): (r: seq<Payment>)
    ensures r == Seqs.Filter(ps, p => PassStatus(p, status))
  {
    if status != "all" then Seqs.Filter(ps, p => PassStatus(p, status))
    else
      Seqs.FilterKeepsAll(ps, p => PassStatus(p, status));
      ps
  }

  function KindStage(ps: seq<Payment>, kind: string): (r: seq<Payment>)
    ensures r == Seqs.Filter(ps, p => PassKind(p, kind))
  {
    if kind != "all" then Seqs.Filter(ps, p => PassKind(p, kind))
    else
      Seqs.FilterKeepsAll(ps, p => PassKind(p, kind));
      ps
  }

  function DateStage(ps: seq<Payment>, range: string, cal: Calendar): (r: seq<Payment>)
    ensures r == Seqs.Filter(ps, p => PassDate(p, range, cal))
  {
    if range != "all" then Seqs.Filter(ps, p => PassDate(p, range, cal))
    else
      Seqs.FilterKeepsAll(ps, p => PassDate(p, range, cal));
      ps
  }

  /**
   * The filtering effect: nothing happens until payments are loaded;
   * then the four stages run in turn, and what the page shows is exactly
   * the loaded payments that pass every stage, in their loaded order.
   */
  function Refilter(shown: seq<Payment>, payments: Option<seq<Payment>>, f: Filters,
                    userType: string, cal: Calendar): (r: seq<Payment>)
    ensures payments.None? ==> r == shown
    ensures payments.Some? ==> r == Seqs.Filter(payments.value, p => Shown(p, f, userType, cal))
    ensures payments.Some? ==> Seqs.Subsequence(r, payments.value)
  {
    if payments.None? then shown
    else
      var all := payments.value;
      var s1 := SearchStage(all, f.search, userType);
      var s2 := StatusStage(s1, f.status);
      var s3 := KindStage(s2, f.kind);
      var s4 := DateStage(s3, f.range, cal);
      PipelineKeepsShown(all, f, userType, cal);
      Seqs.FilterSubsequence(all, p => Shown(p, f, userType, cal));
      s4
  }

  lemma PipelineKeepsShown(all: seq<Payment>, f: Filters, userType: string, cal: Calendar)
    ensures DateStage(KindStage(StatusStage(SearchStage(all, f.search, userType), f.status), f.kind), f.range, cal)
            == Seqs.Filter(all, p => Shown(p, f, userType, cal))
  {
    var search := p => PassSearch(p, f.search, userType);
    var status := p => PassStatus(p, f.status);
    var kind := p => PassKind(p, f.kind);
    var date := p => PassDate(p, f.range, cal);
    var two := p => PassSearch(p, f.search, userType) && PassStatus(p, f.status);
    var three := p => PassSearch(p, f.search, userType) && PassStatus(p, f.status) && PassKind(p, f.kind);
    Seqs.FilterCompose(all, search, status, two);
    Seqs.FilterCompose(all, two, kind, three);
    Seqs.FilterCompose(all, three, date, p => Shown(p, f, userType, cal));
  }

  /** With every filter at its default the whole loaded list is shown. */
  lemma NoFiltersShowAll(shown: seq<Payment>, payments: seq<Payment>, userType: string, cal: Calendar)
    ensures Refilter(shown, Some(payments), Filters("", "all", "all", "all"), userType, cal) == payments
  {
    Seqs.FilterKeepsAll(payments, p => Shown(p, Filters("", "all", "all", "all"), userType, cal));
  }

  /** Searching for a payment's own transaction id, in any letter case, finds it. */
  lemma TransactionIdFindsPayment(p: Payment, term: string, userType: string)
    requires Lower(term) == Lower(p.transactionId)
    ensures PassSearch(p, term, userType)
  {
    var counterpart := if userType == "user" then FullName(p.doctor) else FullName(p.patient);
    var specialization := if p.doctor.None? then "" else p.doctor.value.specialization;
    IncludesLowerHead([p.transactionId, counterpart, specialization, IntToString(p.amount)], " ");
  }

  /** The lower-cased join of some parts contains the lower-cased first part. */
  lemma IncludesLowerHead(parts: seq<string>, sep: string)
    requires |parts| >= 1
    ensures Includes(Lower(Join(parts, sep)), Lower(parts[0]))
  {
    var rest := if |parts| == 1 then "" else sep + Join(parts[1..], sep);
    assert Join(parts, sep) == parts[0] + rest;
    LowerPrefix(parts[0], rest);
    assert OccursAt(Lower(Join(parts, sep)), Lower(parts[0]), 0);
  }

  lemma LowerPrefix(a: string, b: string)
    ensures Lower(a + b)[..|a|] == Lower(a)
  {
  }

  predicate Completed(p: Payment) {
    p.status == "completed"
  }

  function SumAmounts(ps: seq<Payment>): int {
    if ps == [] then 0 else ps[0].amount + SumAmounts(ps[1..])
  }

  /** `calculateTotalAmount`: the amounts of the completed payments shown, 0 for an empty table. */
  function TotalAmount(shown: seq<Payment>): (r: int)
    ensures (forall i :: 0 <= i < |shown| ==> !Completed(shown[i])) ==> r == 0
  {
    if |shown| == 0 then 0
    else
      var done := Seqs.Filter(shown, Completed);
      if done != [] then
        Seqs.FilterMembership(shown, Completed, done[0]);
        SumAmounts(done)
      else 0
  }

  lemma {:induction false} SumAmountsAppend(a: seq<Payment>, b: seq<Payment>)
    ensures SumAmounts(a + b) == SumAmounts(a) + SumAmounts(b)
  {
    if a != [] {
      assert (a + b)[1..] == a[1..] + b;
      SumAmountsAppend(a[1..], b);
    } else {
      assert a + b == b;
    }
  }

  lemma {:induction false} FilterAppend(a: seq<Payment>, b: seq<Payment>)
    ensures Seqs.Filter(a + b, Completed) == Seqs.Filter(a, Completed) + Seqs.Filter(b, Completed)
  {
    if a != [] {
      assert (a + b)[1..] == a[1..] + b;
      FilterAppend(a[1..], b);
    } else {
      assert a + b == b;
    }
  }

  /** The total over two parts of the table is the sum of their totals. */
  lemma TotalSplits(a: seq<Payment>, b: seq<Payment>)
    ensures TotalAmount(a + b) == TotalAmount(a) + TotalAmount(b)
  {
    FilterAppend(a, b);
    SumAmountsAppend(Seqs.Filter(a, Completed), Seqs.Filter(b, Completed));
    if a == [] { assert a + b == b; }
    if b == [] { assert a + b == a; }
  }

  /** One payment contributes its amount exactly when it is completed. */
  lemma TotalOne(p: Payment)
    ensures TotalAmount([p]) == if Completed(p) then p.amount else 0
  {
    assert [p][1..] == [];
    assert Seqs.Filter([p], Completed) == if Completed(p) then [p] else [];
    assert SumAmounts([p]) == p.amount + SumAmounts([]);
  }

  /** The "Completed" card: the number of completed payments shown. */
  function CompletedCount(shown: seq<Payment>): (r: nat)
    ensures r <= |shown|
    ensures r == |shown| <==> forall i :: 0 <= i < |shown| ==> Completed(shown[i])
  {
    CountAll(shown);
    |Seqs.Filter(shown, Completed)|
  }

  /** The count over two parts of the table is the sum of their counts. */
  lemma CompletedCountSplits(a: seq<Payment>, b: seq<Payment>)
    ensures CompletedCount(a + b) == CompletedCount(a) + CompletedCount(b)
  {
    FilterAppend(a, b);
  }

  /** One payment counts exactly when it is completed. */
  lemma CompletedCountOne(p: Payment)
    ensures CompletedCount([p]) == if Completed(p) then 1 else 0
  {
    assert Seqs.Filter([p], Completed) == (if Completed(p) then [p] else []) + Seqs.Filter([p][1..], Completed);
  }

  lemma {:induction false} CountAll(s: seq<Payment>)
    ensures |Seqs.Filter(s, Completed)| == |s| <==> forall i :: 0 <= i < |s| ==> Completed(s[i])
  {
    if s != [] {
      CountAll(s[1..]);
      assert forall i :: 1 <= i < |s| ==> s[i] == s[1..][i - 1];
    }
  }

  /** `getStatusBadge`: the badge variant for each known status, "outline" for any other. */
  function StatusVariant(status: string): (r: string)
    ensures r in ["default", "secondary", "destructive", "outline"]
    ensures r == "default" <==> status == "completed"
    ensures r == "secondary" <==> status == "pending"
    ensures r == "destructive" <==> status == "failed"
  {
    if status == "completed" then "default"
    else if status == "pending" then "secondary"
    else if status == "failed" then "destructive"
    else "outline"
  }
}
