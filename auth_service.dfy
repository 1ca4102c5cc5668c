/** Linking Google sign-ins to staff rows (fastapi-oauth/app/services/auth_service.py). The
    `staff` and `oauth_account` tables are sequences in table order; `.first()` is the first
    matching row. The auto-increment staff id and the configured default for `active` are
    inputs. */
module AuthService {
  import opened Common

  const Provider := "google"

  /** The staff table's username column width. */
  const StaffUsernameMax := 16

  datatype Staff = Staff(
    staffId: nat,
    firstName: string,
    lastName: string,
    email: Option<string>,
    active: bool,
    username: string,
    password: Option<string>)

  datatype OAuthAccount = OAuthAccount(provider: string, providerSub: string, staffId: nat)

  /** `GoogleProfile`; the names may be None or empty. */
  datatype GoogleProfile = GoogleProfile(sub: string, email: string, givenName: Option<string>, familyName: Option<string>)

  /** The first index whose element satisfies `p`, if any. */
  function FindFirst<T>(s: seq<T>, p: T -> bool): (r: Option<nat>)
    ensures r.Some? ==> r.value < |s| && p(s[r.value]) && forall j :: 0 <= j < r.value ==> !p(s[j])
    ensures r.None? ==> forall j :: 0 <= j < |s| ==> !p(s[j])
  {
    if s == [] then None
    else if p(s[0]) then Some(0)
    else match FindFirst(s[1..], p)
      case None => None
      case Some(i) => Some(i + 1)
  }

  predicate IsGoogleLink(l: OAuthAccount, sub: string) {
    l.provider == Provider && l.providerSub == sub
  }

  /** The row a first sign-in creates: the names default to "Google" and "User", the
      username is the e-mail's local part cut to 16 characters, and there is no password. */
  function NewStaff(p: GoogleProfile, staffId: nat, defaultActive: bool): (s: Staff)
    ensures s.staffId == staffId && s.email == Some(p.email) && s.password.None? && s.active == defaultActive
    ensures s.firstName == (if Given(p.givenName) then p.givenName.value else "Google")
    ensures s.lastName == (if Given(p.familyName) then p.familyName.value else "User")
    ensures s.username == Take(LocalPart(p.email), StaffUsernameMax)
    // a prefix of the e-mail without `@`, cut short of 16 characters only at the first `@`
    // or at the end of the e-mail
    ensures |s.username| <= StaffUsernameMax && '@' !in s.username && s.username <= p.email
    ensures |s.username| < StaffUsernameMax && |s.username| < |p.email| ==> p.email[|s.username|] == '@'
  {
    Staff(staffId,
          if Given(p.givenName) then p.givenName.value else "Google",
          if Given(p.familyName) then p.familyName.value else "User",
          Some(p.email), defaultActive, Take(LocalPart(p.email), StaffUsernameMax), None)
  }

  function IdsOf(staff: seq<Staff>): set<nat> {
    set s | s in staff :: s.staffId
  }

  predicate Consistent(staff: seq<Staff>, links: seq<OAuthAccount>) {
    && (forall i, j :: 0 <= i < j < |staff| ==> staff[i].staffId != staff[j].staffId)
    && (forall l :: l in links ==> l.staffId in IdsOf(staff))
  }

  /** A link to an existing row keeps the tables consistent. */
  lemma LinkKeepsConsistent(staff: seq<Staff>, links: seq<OAuthAccount>, l: OAuthAccount)
    requires Consistent(staff, links) && l.staffId in IdsOf(staff)
    ensures Consistent(staff, links + [l])
  {
  }

  /** A row with a fresh id keeps the tables consistent, and its id becomes known. */
  lemma NewRowKeepsConsistent(staff: seq<Staff>, links: seq<OAuthAccount>, s: Staff)
    requires Consistent(staff, links) && s.staffId !in IdsOf(staff)
    ensures Consistent(staff + [s], links) && IdsOf(staff + [s]) == IdsOf(staff) + {s.staffId}
  {
    var t := staff + [s];
    forall i | 0 <= i < |staff| ensures t[i].staffId != s.staffId {
      assert t[i] in staff;
    }
    assert IdsOf(t) == IdsOf(staff) + {s.staffId} by {
      assert forall r :: r in t <==> r in staff || r == s;
    }
  }

  /** Every link of consistent tables names a row of the staff table. */
  lemma LinkedRowExists(staff: seq<Staff>, links: seq<OAuthAccount>, k: nat)
    requires Consistent(staff, links) && k < |links|
    ensures FindFirst(staff, (r: Staff) => r.staffId == links[k].staffId).Some?
  {
    assert links[k] in links;
    var r :| r in staff && r.staffId == links[k].staffId;
    var i :| 0 <= i < |staff| && staff[i] == r;
  }

  class StaffDirectory {
    var staff: seq<Staff>
    var links: seq<OAuthAccount>

    function StaffIds(): set<nat>
      reads this
    {
      IdsOf(staff)
    }

    /** Staff ids are keys, and every link points at a staff row. */
    ghost predicate Valid()
      reads this
    {
      Consistent(staff, links)
    }

    constructor (staff0: seq<Staff>)
      requires forall i, j :: 0 <= i < j < |staff0| ==> staff0[i].staffId != staff0[j].staffId
      ensures Valid() && staff == staff0 && links == []
    {
      staff := staff0;
      links := [];
    }

    /** `get_or_create_staff_from_google`: an existing Google link returns its staff row and
        writes nothing; otherwise the first staff row with that e-mail is reused, or a new row
        is appended, and exactly one Google link to the returned row is appended. */
    method GetOrCreateStaffFromGoogle(p: GoogleProfile, defaultActive: bool, newStaffId: nat) returns (s: Staff)
      requires Valid() && newStaffId !in StaffIds()
      modifies this
      ensures Valid()
      ensures var li := FindFirst(old(links), (l: OAuthAccount) => IsGoogleLink(l, p.sub));
              li.Some? ==> staff == old(staff) && links == old(links)
                           && s in staff && s.staffId == old(links)[li.value].staffId
      ensures var li := FindFirst(old(links), (l: OAuthAccount) => IsGoogleLink(l, p.sub));
              var si := FindFirst(old(staff), (r: Staff) => r.email == Some(p.email));
              li.None? ==>
                && links == old(links) + [OAuthAccount(Provider, p.sub, s.staffId)]
                && (si.Some? ==> staff == old(staff) && s == old(staff)[si.value])
                && (si.None? ==> staff == old(staff) + [NewStaff(p, newStaffId, defaultActive)]
                                 && s == NewStaff(p, newStaffId, defaultActive))
    {
      var li := FindFirst(links, (l: OAuthAccount) => IsGoogleLink(l, p.sub));
      if li.Some? {
        var owner := links[li.value].staffId;
        LinkedRowExists(staff, links, li.value);
        var k := FindFirst(staff, (r: Staff) => r.staffId == owner);
        s := staff[k.value];
        return;
      }
      var si := FindFirst(staff, (r: Staff) => r.email == Some(p.email));
      if si.Some? {
        s := staff[si.value];
        assert s in staff;
      } else {
        s := NewStaff(p, newStaffId, defaultActive);
        NewRowKeepsConsistent(staff, links, s);
        staff := staff + [s];
      }
      var link := OAuthAccount(Provider, p.sub, s.staffId);
      LinkKeepsConsistent(staff, links, link);
      links := links + [link];
    }
  }
}
