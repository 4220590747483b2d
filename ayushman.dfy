/**
 * The Ayushman Bharat page: the hospital search, the card verification
 * form's guard and the usage figures read from the card's rupee amounts.
 */
module Ayushman {
  import opened Wrappers
  import opened Text
  import Seqs

  datatype Hospital = Hospital(
    id: int, name: string, distance: string, address: string, phone: string,
    specialties: seq<string>, rating: real, waitTime: string)

  datatype Details = Details(
    cardNumber: string, beneficiaryName: string, familyMembers: int, validUntil: string,
    status: string, availableBalance: string, usedAmount: string)

  datatype Claim = Claim(id: string, date: string, hospital: string, treatment: string, amount: int, status: string)

  /** The query, lowercased, occurs in the lowercased text. */
  predicate Hit(text: string, query: string) {
    Includes(Lower(text), Lower(query))
  }

  /** A hospital the search shows: its name or one of its specialties contains the query, ignoring case. */
  predicate Shows(h: Hospital, query: string) {
    Hit(h.name, query) || exists i :: 0 <= i < |h.specialties| && Hit(h.specialties[i], query)
  }

  /** `specialties.some(...)`: one of the specialties contains the query. */
  function AnySpecialty(specialties: seq<string>, query: string): (r: bool)
    ensures r <==> exists i :: 0 <= i < |specialties| && Hit(specialties[i], query)
  {
    if specialties == [] then false
    else if Hit(specialties[0], query) then true
    else
      var r := AnySpecialty(specialties[1..], query);
      assert forall i :: 1 <= i < |specialties| ==> specialties[i] == specialties[1..][i - 1];
      r
  }

  function Matches(query: string): Hospital -> bool {
    (h: Hospital) => Hit(h.name, query) || AnySpecialty(h.specialties, query)
  }

  /** `filteredHospitals`: the hospitals the query shows, in their listed order. */
  function FilteredHospitals(hospitals: seq<Hospital>, query: string): (r: seq<Hospital>)
    ensures forall h :: h in r <==> h in hospitals && Shows(h, query)
    ensures Seqs.Subsequence(r, hospitals)
    ensures forall h :: Seqs.Count(r, h) == if Shows(h, query) then Seqs.Count(hospitals, h) else 0
  {
    forall h ensures h in Seqs.Filter(hospitals, Matches(query)) <==> h in hospitals && Shows(h, query) {
      Seqs.FilterMembership(hospitals, Matches(query), h);
    }
    forall h ensures Seqs.Count(Seqs.Filter(hospitals, Matches(query)), h) == if Shows(h, query) then Seqs.Count(hospitals, h) else 0 {
      Seqs.FilterCount(hospitals, Matches(query), h);
    }
    Seqs.FilterSubsequence(hospitals, Matches(query));
    Seqs.Filter(hospitals, Matches(query))
  }

  /** An empty search shows every hospital. */
  lemma EmptyQueryShowsAll(hospitals: seq<Hospital>)
    ensures FilteredHospitals(hospitals, "") == hospitals
  {
    forall i | 0 <= i < |hospitals| ensures Matches("")(hospitals[i]) {
      IncludesEmpty(Lower(hospitals[i].name));
    }
    Seqs.FilterKeepsAll(hospitals, Matches(""));
  }

  /** The card verification form. */
  datatype Verification = Verification(cardNumber: string, mobileNumber: string, dateOfBirth: string)

  /** The part of the page verification drives. */
  datatype Page = Page(
    isVerified: bool, verifying: bool, loadingData: bool,
    details: Option<Details>, hospitals: seq<Hospital>, claims: seq<Claim>)

  /** The form lacks a field. */
  predicate Incomplete(form: Verification) {
    form.cardNumber == "" || form.mobileNumber == "" || form.dateOfBirth == ""
  }

  /** The card details the page shows for a verified card number. */
  function CardDetails(cardNumber: string): Details {
    Details(cardNumber, "Rajesh Kumar", 4, "2025-12-31", "Active", "₹5,00,000", "₹1,25,000")
  }

  const NearbyHospitals: seq<Hospital> := [
    Hospital(1, "City General Hospital", "2.5 km", "123 Healthcare Lane, New Delhi", "+91 98765 43210",
      ["General Medicine", "Cardiology", "Orthopedics"], 4.5, "15 mins"),
    Hospital(2, "Apollo Hospital", "4.1 km", "456 Medical Road, New Delhi", "+91 98765 43211",
      ["Neurology", "Oncology", "Pediatrics"], 4.8, "30 mins")
  ]

  const RecentClaims: seq<Claim> := [
    Claim("CLM001", "2024-02-15", "City General Hospital", "Knee Surgery", 75000, "Approved"),
    Claim("CLM002", "2024-01-20", "Apollo Hospital", "Medical Tests", 25000, "Processing")
  ]

  /**
   * `handleVerification` once it has settled: an incomplete form changes
   * nothing; otherwise the card is verified and the details, hospitals and
   * claims for that card number are loaded, with no loading flag left set.
   */
  function Verify(form: Verification, page: Page): (r: Page)
    ensures Incomplete(form) ==> r == page
    ensures !Incomplete(form) ==> r.isVerified && !r.verifying && !r.loadingData
    ensures !Incomplete(form) ==> r.details.Some? && r.details.value.cardNumber == form.cardNumber
    ensures !Incomplete(form) ==> r.hospitals == NearbyHospitals && r.claims == RecentClaims
  {
    if form.cardNumber == "" || form.mobileNumber == "" || form.dateOfBirth == "" then page
    else Page(true, false, false, Some(CardDetails(form.cardNumber)), NearbyHospitals, RecentClaims)
  }

  /** `parseInt(s.replace(/[^0-9]/g, ''))`: the digits of the amount read as one number; `None` stands for `NaN`. */
  predicate NotDigit(c: char) { !IsDigit(c) }

  function ParseAmount(s: string): (r: Option<nat>)
    ensures r.None? <==> forall i :: 0 <= i < |s| ==> !IsDigit(s[i])
  {
    var digits := RemoveWhere(s, NotDigit);
    KeptDigits(s);
    ParseDigits(digits)
  }

  lemma {:induction false} KeptDigits(s: string)
    ensures AllDigits(RemoveWhere(s, NotDigit))
    ensures RemoveWhere(s, NotDigit) == [] <==> forall i :: 0 <= i < |s| ==> !IsDigit(s[i])
  {
    if s != [] {
      KeptDigits(s[1..]);
      assert forall i :: 1 <= i < |s| ==> s[i] == s[1..][i - 1];
    }
  }

  /** The figures `calculateUsagePercentage` divides: none without details (the page shows 0). */
  datatype Usage = NoDetails | Ratio(used: Option<nat>, total: Option<nat>)

  function UsageOf(details: Option<Details>): (r: Usage)
    ensures r.NoDetails? <==> details.None?
    ensures details.Some? ==> r == Ratio(ParseAmount(details.value.usedAmount), ParseAmount(details.value.availableBalance))
  {
    match details
    case None => NoDetails
    case Some(d) => Ratio(ParseAmount(d.usedAmount), ParseAmount(d.availableBalance))
  }

  /** A character that is not a digit, wherever it stands, does not change the amount read. */
  lemma NonDigitIgnored(a: string, c: char, b: string)
    requires !IsDigit(c)
    ensures ParseAmount(a + [c] + b) == ParseAmount(a + b)
  {
    RemoveWhereAppend(a + [c], b, NotDigit);
    RemoveWhereAppend(a, [c], NotDigit);
    RemoveWhereAppend(a, b, NotDigit);
    assert [c][1..] == [];
    assert RemoveWhere([c], NotDigit) == [];
    assert RemoveWhere(a + [c] + b, NotDigit) == RemoveWhere(a + b, NotDigit);
  }

  /** A number's own decimal text reads back as that number. */
  lemma ParseAmountOfNat(n: nat)
    ensures ParseAmount(NatToString(n)) == Some(n)
  {
    RemoveWhereNothing(NatToString(n), NotDigit);
    ParseNatToString(n);
  }

  /** The grouping commas and the rupee sign are skipped: "₹1,25,000" reads as 125000. */
  lemma IndianGroupingParsed()
    ensures ParseAmount("₹1,25,000") == Some(125000)
  {
    assert RemoveWhere("₹1,25,000", NotDigit) == "125000";
    DigitsOfClaimed();
  }

  lemma DigitsOfClaimed()
    ensures DigitsValue("125000") == 125000
  {
    assert "1"[..0] == "";
    assert DigitsValue("1") == 1;
    assert "12"[..1] == "1";
    assert DigitsValue("12") == 12;
    assert "125"[..2] == "12";
    assert DigitsValue("125") == 125;
    assert "1250"[..3] == "125";
    assert DigitsValue("1250") == 1250;
    assert "12500"[..4] == "1250";
    assert DigitsValue("12500") == 12500;
    assert "125000"[..5] == "12500";
  }
}
