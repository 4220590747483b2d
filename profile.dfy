/**
 * The profile page's logic: the Indian mobile-number check, the emergency
 * contact list, and the online-status switch that flips at once and flips
 * back when the server call fails.
 */
module Profile {
  import opened Wrappers
  import opened Text

  /** A separator the check strips first: `-` or white space (`/[-\s]/g`). */
  predicate IsSeparator(c: char) {
    c == '-' || IsSpace(c)
  }

  /** `[6789]\d{9}`: a ten-digit mobile number. */
  predicate Mobile(s: string) {
    |s| == 10 && '6' <= s[0] <= '9' && AllDigits(s[1..])
  }

  /** `(\+91[\-\s]?)?` */
  predicate CountryGroup(p: string) {
    p == "" || p == "+91" || (|p| == 4 && p[..3] == "+91" && IsSeparator(p[3]))
  }

  /** `[0]?` */
  predicate TrunkGroup(p: string) {
    p == "" || p == "0"
  }

  /** `(91)?` */
  predicate CodeGroup(p: string) {
    p == "" || p == "91"
  }

  /**
   * The strings `/^(\+91[\-\s]?)?[0]?(91)?[6789]\d{9}$/` matches: those that
   * split into each optional group in turn followed by a mobile number.
   */
  predicate Matches(s: string) {
    exists a, b, c :: 0 <= a <= b <= c <= |s| && CountryGroup(s[..a]) && TrunkGroup(s[a..b]) &&
                      CodeGroup(s[b..c]) && Mobile(s[c..])
  }

  /** After the optional groups: a mobile number, or "91" and a mobile number. */
  predicate NumberPart(r: string) {
    Mobile(r) || (|r| >= 2 && r[..2] == "91" && Mobile(r[2..]))
  }

  /** The rest after an optional trunk "0". */
  predicate TrunkPart(r: string) {
    if |r| >= 1 && r[0] == '0' then NumberPart(r[1..]) else NumberPart(r)
  }

  /**
   * The pattern decided left to right: each group is taken exactly when the
   * string starts with it, since no later part can start with its first
   * character ('+' or '0'), and the one real choice, "91", is tried both ways.
   */
  function CheckNumber(s: string): (ok: bool)
    ensures ok <==> Matches(s)
  {
    CheckSound(s);
    CheckComplete(s);
    TrunkPart(AfterCountry(s))
  }

  /** `s` without a leading `+91` and the separator after it. */
  function AfterCountry(s: string): string {
    if |s| >= 4 && s[..3] == "+91" && IsSeparator(s[3]) then s[4..]
    else if |s| >= 3 && s[..3] == "+91" then s[3..]
    else s
  }

  lemma NumberPartMatches(s: string, b: nat)
    requires b <= |s| && NumberPart(s[b..])
    ensures exists c :: b <= c <= |s| && CodeGroup(s[b..c]) && Mobile(s[c..])
  {
    if Mobile(s[b..]) {
      assert s[b..b] == "" && s[b..][..] == s[b..];
    } else {
      assert s[b..b + 2] == s[b..][..2];
      assert s[b + 2..] == s[b..][2..];
    }
  }

  lemma CheckSound(s: string)
    ensures TrunkPart(AfterCountry(s)) ==> Matches(s)
  {
    if TrunkPart(AfterCountry(s)) {
      var a := |s| - |AfterCountry(s)|;
      CountryStripped(s);
      var b := TrunkStripped(s, a);
      NumberPartMatches(s, b);
      var c :| b <= c <= |s| && CodeGroup(s[b..c]) && Mobile(s[c..]);
      assert 0 <= a <= b <= c <= |s| && CountryGroup(s[..a]) && TrunkGroup(s[a..b]) && CodeGroup(s[b..c]) && Mobile(s[c..]);
    }
  }

  /** `AfterCountry` drops a country group and keeps the rest. */
  lemma CountryStripped(s: string)
    ensures |AfterCountry(s)| <= |s|
    ensures AfterCountry(s) == s[|s| - |AfterCountry(s)|..]
    ensures CountryGroup(s[..|s| - |AfterCountry(s)|])
  {
    var a := |s| - |AfterCountry(s)|;
    if a == 4 { assert s[..a][..3] == s[..3]; }
    else if a == 3 { assert s[..a] == s[..3]; }
    else { assert s[..a] == ""; }
  }

  /** The trunk "0" taken by `TrunkPart` is a trunk group, and the number part follows it. */
  lemma TrunkStripped(s: string, a: int) returns (b: int)
    requires 0 <= a <= |s| && TrunkPart(s[a..])
    ensures a <= b <= |s| && TrunkGroup(s[a..b]) && NumberPart(s[b..])
  {
    var r := s[a..];
    if |r| >= 1 && r[0] == '0' {
      b := a + 1;
      assert s[a..b] == [r[0]];
      assert s[b..] == r[1..];
    } else {
      b := a;
      assert s[a..b] == "";
    }
  }

  /** What follows the country group starts with a digit. */
  lemma AfterGroupsDigit(s: string, a: int, b: int, c: int)
    requires 0 <= a <= b <= c <= |s| && TrunkGroup(s[a..b]) && CodeGroup(s[b..c]) && Mobile(s[c..])
    ensures a < |s| && '0' <= s[a] <= '9'
    ensures b == a ==> a < |s| && s[a] != '0'
  {
    assert s[c] == s[c..][0];
    if b > a { assert s[a] == s[a..b][0]; }
    else if c > b { assert s[a] == s[b..c][0]; }
  }

  /** The country group the pattern used is the one `AfterCountry` strips. */
  lemma CountryDetermined(s: string, a: int, b: int, c: int)
    requires 0 <= a <= b <= c <= |s| && CountryGroup(s[..a]) && TrunkGroup(s[a..b]) &&
             CodeGroup(s[b..c]) && Mobile(s[c..])
    ensures AfterCountry(s) == s[a..]
  {
    AfterGroupsDigit(s, a, b, c);
    if a == 0 {
      assert !(|s| >= 3 && s[..3] == "+91") by { if |s| >= 3 { assert s[..3][0] == s[0]; } }
    } else if a == 3 {
      assert s[..3] == s[..a];
    } else {
      assert s[..3] == s[..a][..3] && s[3] == s[..a][3];
    }
  }

  lemma NumberPartAt(s: string, b: int, c: int)
    requires 0 <= b <= c <= |s| && CodeGroup(s[b..c]) && Mobile(s[c..])
    ensures NumberPart(s[b..])
  {
    var t := s[b..];
    if c == b {
      assert t == s[c..];
    } else {
      assert t[..2] == s[b..c];
      assert t[2..] == s[c..];
    }
  }

  lemma TrunkPartAt(s: string, a: int, b: int, c: int)
    requires 0 <= a <= b <= c <= |s| && TrunkGroup(s[a..b]) && CodeGroup(s[b..c]) && Mobile(s[c..])
    ensures TrunkPart(s[a..])
  {
    AfterGroupsDigit(s, a, b, c);
    NumberPartAt(s, b, c);
    var r := s[a..];
    if b == a + 1 {
      assert r[0] == s[a..b][0];
      assert r[1..] == s[b..];
    } else {
      assert r == s[b..];
    }
  }

  lemma CheckComplete(s: string)
    ensures Matches(s) ==> TrunkPart(AfterCountry(s))
  {
    if Matches(s) {
      var a, b, c :| 0 <= a <= b <= c <= |s| && CountryGroup(s[..a]) && TrunkGroup(s[a..b]) &&
                     CodeGroup(s[b..c]) && Mobile(s[c..]);
      CountryDetermined(s, a, b, c);
      TrunkPartAt(s, a, b, c);
    }
  }

  /** `phone.replace(/[-\s]/g, '')`. */
  function Strip(phone: string): (r: string)
    ensures forall i :: 0 <= i < |r| ==> !IsSeparator(r[i])
  {
    RemoveWhere(phone, IsSeparator)
  }

  /**
   * `validateIndianPhoneNumber`: separators removed, then the pattern; so
   * "+91", "0" and "91" may each precede the ten digits.
   */
  function ValidateIndianPhoneNumber(phone: string): (ok: bool)
    ensures ok <==> Matches(Strip(phone))
  {
    CheckNumber(Strip(phone))
  }

  /** The eight prefixes the pattern allows before the ten digits once separators are gone. */
  const Forms: seq<string> := ["", "0", "91", "091", "+91", "+910", "+9191", "+91091"]

  predicate HasForm(s: string, p: string) {
    |p| <= |s| && s[..|p|] == p && Mobile(s[|p|..])
  }

  /** A match on a separator-free string uses one of the eight prefixes. */
  lemma FormOfMatch(s: string, a: int, b: int, c: int)
    requires forall i :: 0 <= i < |s| ==> !IsSeparator(s[i])
    requires 0 <= a <= b <= c <= |s| && CountryGroup(s[..a]) && TrunkGroup(s[a..b]) &&
             CodeGroup(s[b..c]) && Mobile(s[c..])
    ensures s[..c] in Forms && HasForm(s, s[..c])
  {
    var x, y, z := s[..a], s[a..b], s[b..c];
    assert s[..c] == x + y + z;
    if x == "" {
      if y == "" {
        if z == "" { assert x + y + z == Forms[0]; } else { assert x + y + z == Forms[2]; }
      } else {
        if z == "" { assert x + y + z == Forms[1]; } else { assert x + y + z == Forms[3]; }
      }
    } else {
      if y == "" {
        if z == "" { assert x + y + z == Forms[4]; } else { assert x + y + z == Forms[6]; }
      } else {
        if z == "" { assert x + y + z == Forms[5]; } else { assert x + y + z == Forms[7]; }
      }
    }
  }

  /** Each of the eight prefixes before a mobile number is a match. */
  lemma MatchOfForm(s: string, p: string)
    requires p in Forms && HasForm(s, p)
    ensures Matches(s)
  {
    var a := if |p| >= 3 && p[..3] == "+91" then 3 else 0;
    var b := if |p| > a && p[a] == '0' then a + 1 else a;
    var c := |p|;
    assert s[..a] == p[..a] && s[a..b] == p[a..b] && s[b..c] == p[b..c];
    assert CountryGroup(s[..a]) && TrunkGroup(s[a..b]) && CodeGroup(s[b..c]);
  }

  /** On a string without separators the pattern is one of eight prefixes before a mobile number. */
  lemma StrippedForms(s: string)
    requires forall i :: 0 <= i < |s| ==> !IsSeparator(s[i])
    ensures Matches(s) <==> exists p :: p in Forms && HasForm(s, p)
  {
    if Matches(s) {
      var a, b, c :| 0 <= a <= b <= c <= |s| && CountryGroup(s[..a]) && TrunkGroup(s[a..b]) &&
                     CodeGroup(s[b..c]) && Mobile(s[c..]);
      FormOfMatch(s, a, b, c);
    }
    if p :| p in Forms && HasForm(s, p) {
      MatchOfForm(s, p);
    }
  }

  datatype Contact = Contact(name: string, phoneNumber: string, relationship: string)

  const BlankContact: Contact := Contact("", "", "")

  /** Why a contact is refused: a field shorter than the schema allows, or a number that is not Indian. */
  datatype Refusal = TooShort | NotIndian

  /** The schema (name and relationship of 2 characters or more, number of 10 or more), then the number check. */
  function CheckContact(c: Contact): (r: Option<Refusal>)
    ensures r.None? <==>
      |c.name| >= 2 && |c.phoneNumber| >= 10 && |c.relationship| >= 2 && ValidateIndianPhoneNumber(c.phoneNumber)
    ensures r == Some(NotIndian) <==>
      |c.name| >= 2 && |c.phoneNumber| >= 10 && |c.relationship| >= 2 && !ValidateIndianPhoneNumber(c.phoneNumber)
  {
    if |c.name| < 2 || |c.phoneNumber| < 10 || |c.relationship| < 2 then Some(TooShort)
    else if !ValidateIndianPhoneNumber(c.phoneNumber) then Some(NotIndian)
    else None
  }

  datatype Contacts = Contacts(list: seq<Contact>, form: Contact)

  /** `addEmergencyContact`: a valid contact is appended and the form reset; a refused one changes nothing. */
  function AddEmergencyContact(p: Contacts): (r: Contacts)
    ensures CheckContact(p.form).Some? ==> r == p
    ensures CheckContact(p.form).None? ==> r.list == p.list + [p.form] && r.form == BlankContact
  {
    if CheckContact(p.form).Some? then p else Contacts(p.list + [p.form], BlankContact)
  }

  /** `removeEmergencyContact(i)`: the contact at position `i` goes (none for an index off the list). */
  function RemoveAt(list: seq<Contact>, i: int): (r: seq<Contact>)
    ensures 0 <= i < |list| ==> r == list[..i] + list[i + 1..]
    ensures !(0 <= i < |list|) ==> r == list
  {
    if list == [] then []
    else
      var rest := RemoveAt(list[1..], i - 1);
      assert 0 <= i - 1 < |list[1..]| ==> list[1..][..i - 1] + list[1..][i..] == list[1..i] + list[i + 1..];
      assert list == [list[0]] + list[1..];
      (if i == 0 then [] else [list[0]]) + rest
  }

  /** Removing the contact just added restores the list. */
  lemma AddThenRemove(p: Contacts)
    requires CheckContact(p.form).None?
    ensures RemoveAt(AddEmergencyContact(p).list, |p.list|) == p.list
  {
    var l := p.list + [p.form];
    assert l[..|p.list|] == p.list && l[|p.list| + 1..] == [];
  }

  /** The switch state and the status events sent on the socket. */
  class StatusSwitch {
    var isOnline: bool
    var emitted: seq<(string, bool)>

    constructor (isOnline: bool)
      ensures this.isOnline == isOnline && emitted == []
    {
      this.isOnline := isOnline;
      emitted := [];
    }

    /**
     * `toggleOnlineStatus`: the switch flips before the request. If the
     * request throws it flips back; on status 200 the new state is announced
     * as "user-status-change" when a socket and an id exist; another success
     * status keeps the new state silently.
     */
    method Toggle(response: Result<int>, hasSocket: bool, currentId: string)
      modifies this
      ensures response.Err? ==> isOnline == old(isOnline) && emitted == old(emitted)
      ensures response.Ok? ==> isOnline == !old(isOnline)
      ensures response.Ok? ==>
        emitted == old(emitted) + (if response.value == 200 && hasSocket && currentId != "" then [(currentId, !old(isOnline))] else [])
    {
      var newStatus := !isOnline;
      isOnline := newStatus;
      if response.Err? {
        isOnline := !newStatus;
        return;
      }
      if response.value == 200 && hasSocket && currentId != "" {
        emitted := emitted + [(currentId, newStatus)];
      }
    }
  }
}
