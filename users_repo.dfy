/** The Firestore users collection of the OAuth service (fastapi-oauth/app/repos/users_repo.py):
    username derivation, first-user-becomes-HR_ADMIN, merge on later logins, role updates.
    Documents are keyed by the Firebase uid; the clock is a parameter. */
module UsersRepo {
  import opened Common
  import opened Documents

  /** Characters `str.strip()` removes, restricted to ASCII. */
  predicate IsSpace(c: char) {
    (9 <= c as int <= 13) || (28 <= c as int <= 32)
  }

  /** How many whitespace characters `s` starts with. */
  function LeadingSpaces(s: string): (n: nat)
    ensures n <= |s|
    ensures forall i :: 0 <= i < n ==> IsSpace(s[i])
    ensures n == |s| || !IsSpace(s[n])
  {
    if s != [] && IsSpace(s[0]) then 1 + LeadingSpaces(s[1..]) else 0
  }

  /** How many whitespace characters `s` ends with. */
  function TrailingSpaces(s: string): (n: nat)
    ensures n <= |s|
    ensures forall i :: |s| - n <= i < |s| ==> IsSpace(s[i])
    ensures n == |s| || !IsSpace(s[|s| - n - 1])
  {
    if s != [] && IsSpace(s[|s| - 1]) then 1 + TrailingSpaces(s[..|s| - 1]) else 0
  }

  /** `s.strip()`. */
  function Strip(s: string): (r: string)
    ensures r == [] || (!IsSpace(r[0]) && !IsSpace(r[|r| - 1]))
    ensures |r| <= |s|
  {
    if LeadingSpaces(s) == |s| then [] else s[LeadingSpaces(s)..|s| - TrailingSpaces(s)]
  }

  /** `s.strip()` is the slice of `s` left after dropping exactly its leading and trailing
      whitespace: everything before the slice and after it is whitespace, and the slice
      neither starts nor ends with whitespace. */
  lemma StripSpec(s: string)
    ensures LeadingSpaces(s) + |Strip(s)| <= |s|
    ensures Strip(s) == s[LeadingSpaces(s)..LeadingSpaces(s) + |Strip(s)|]
    ensures forall k :: 0 <= k < LeadingSpaces(s) ==> IsSpace(s[k])
    ensures forall k :: LeadingSpaces(s) + |Strip(s)| <= k < |s| ==> IsSpace(s[k])
  {
  }

  /** Stripping only removes characters. */
  lemma StripKeepsChars(s: string)
    ensures forall c :: c in Strip(s) ==> c in s
  {
    StripSpec(s);
    forall c | c in Strip(s) ensures c in s {
      var i :| 0 <= i < |Strip(s)| && Strip(s)[i] == c;
      assert Strip(s)[i] == s[LeadingSpaces(s) + i];
    }
  }

  function LowerChar(c: char): (d: char)
    ensures !('A' <= d <= 'Z')
    ensures !('A' <= c <= 'Z') ==> d == c
    ensures 'A' <= c <= 'Z' ==> d as int == c as int + 32
  {
    if 'A' <= c <= 'Z' then (c as int - 'A' as int + 'a' as int) as char else c
  }

  /** `s.lower()` on ASCII letters. */
  function Lower(s: string): (r: string)
    ensures |r| == |s|
  {
    if s == [] then [] else [LowerChar(s[0])] + Lower(s[1..])
  }

  lemma {:induction false} LowerSpec(s: string)
    ensures forall i :: 0 <= i < |s| ==> Lower(s)[i] == LowerChar(s[i])
  {
    if s != [] {
      LowerSpec(s[1..]);
    }
  }

  /** Maximum username length. */
  const UsernameMax := 16

  /** The text the username is derived from: the given name when it is truthy, else the
      local part of the email, stripped. */
  function UsernameSource(givenName: Option<string>, email: string): string {
    Strip(if Given(givenName) then givenName.value else LocalPart(email))
  }

  /** `(given_name or email.split("@")[0]).strip().lower()[:16] or "user"`. */
  function BaseUsername(givenName: Option<string>, email: string): (u: string)
    ensures 1 <= |u| <= UsernameMax
  {
    var t := Take(Lower(UsernameSource(givenName, email)), UsernameMax);
    if t == [] then "user" else t
  }

  /** Lower-casing never produces or removes whitespace or an `@`. */
  lemma LowerCharKeeps(c: char)
    ensures IsSpace(LowerChar(c)) <==> IsSpace(c)
    ensures LowerChar(c) == '@' <==> c == '@'
  {
  }

  /** The first `UsernameMax` characters of `Lower(source)` are those of `source`, lower-cased. */
  lemma TakeLower(source: string)
    ensures var t := Take(Lower(source), UsernameMax);
            && |t| == (if |source| < UsernameMax then |source| else UsernameMax)
            && forall i :: 0 <= i < |t| ==> t[i] == LowerChar(source[i])
  {
    LowerSpec(source);
  }

  /** Lower-casing and truncating text without an `@` leaves none. */
  lemma TakeLowerNoAt(source: string)
    requires '@' !in source
    ensures '@' !in Take(Lower(source), UsernameMax)
  {
    var t := Take(Lower(source), UsernameMax);
    TakeLower(source);
    forall i | 0 <= i < |t| ensures t[i] != '@' {
      LowerCharKeeps(source[i]);
    }
  }

  /** The username is "user" exactly when there is nothing to derive it from; otherwise it is
      the first 16 characters of the stripped source, lower-cased, so it has no upper-case
      letter, does not start with a space, and (when taken from the email) has no `@`. */
  lemma BaseUsernameSpec(givenName: Option<string>, email: string)
    ensures var u := BaseUsername(givenName, email);
            var source := UsernameSource(givenName, email);
            && (source == [] ==> u == "user")
            && (source != [] ==> |u| == (if |source| < UsernameMax then |source| else UsernameMax)
                                 && !IsSpace(u[0])
                                 && forall i :: 0 <= i < |u| ==> u[i] == LowerChar(source[i]))
            && (forall i :: 0 <= i < |u| ==> !('A' <= u[i] <= 'Z'))
            && (!Given(givenName) ==> '@' !in u)
  {
    var raw := if Given(givenName) then givenName.value else LocalPart(email);
    var source := UsernameSource(givenName, email);
    var u := BaseUsername(givenName, email);
    TakeLower(source);
    if source == [] {
      assert u == "user";
    } else {
      assert u == Take(Lower(source), UsernameMax);
      LowerCharKeeps(source[0]);
      if !Given(givenName) {
        StripKeepsChars(raw);
        assert '@' !in source;
        TakeLowerNoAt(source);
      }
    }
  }

  /** `_epoch_to_dt`: a falsy timestamp (absent, None or 0) gives None. */
  function EpochToDt(ts: Option<int>): (r: Option<int>)
    ensures r.None? <==> ts.None? || ts.value == 0
    ensures r.Some? ==> r == ts
  {
    if ts.Some? && ts.value != 0 then ts else None
  }

  /** `UserOut`; datetimes are epoch seconds. */
  datatype UserOut = UserOut(
    uid: Value,
    firstName: Value,
    lastName: Value,
    email: Value,
    username: Value,
    active: bool,
    lastUpdate: Option<int>)

  /** Fields every stored user document has, as this module writes them. */
  predicate IsUserDoc(d: Doc) {
    "uid" in d && "username" in d && (("updated_at" in d) ==> d["updated_at"].Null? || d["updated_at"].Int?)
  }

  /** `_to_user_out`. */
  function ToUserOut(d: Doc): (u: UserOut)
    requires IsUserDoc(d)
    ensures u.uid == d["uid"] && u.username == d["username"]
    ensures u.firstName == Get(d, "given_name", Null) && u.lastName == Get(d, "family_name", Null)
    ensures u.email == Get(d, "email", Null)
    ensures u.active <==> "active" !in d || Truthy(d["active"])
    ensures u.lastUpdate.None? <==> "updated_at" !in d || d["updated_at"] in {Null, Int(0)}
    ensures u.lastUpdate.Some? ==> d["updated_at"] == Int(u.lastUpdate.value)
  {
    var ts := Get(d, "updated_at", Null);
    UserOut(d["uid"], Get(d, "given_name", Null), Get(d, "family_name", Null), Get(d, "email", Null),
            d["username"], Truthy(Get(d, "active", Bool(true))), EpochToDt(if ts.Int? then Some(ts.i) else None))
  }

  /** The Google userinfo fields the login reads. */
  datatype GoogleProfile = GoogleProfile(
    email: string,
    name: Option<string>,
    givenName: Option<string>,
    familyName: Option<string>,
    picture: Option<string>,
    sub: Option<string>)

  /** The fields every login writes; `username` is `BaseUsername` of the profile. */
  function LoginData(p: GoogleProfile, uid: string, username: string, now: int): (d: Doc)
    ensures "uid" in d && "email" in d && "username" in d && "active" in d && "provider" in d
    ensures "updated_at" in d && "last_login" in d
    ensures d["uid"] == Str(uid) && d["email"] == Str(p.email)
    ensures d["username"] == Str(username)
    ensures d["active"] == Bool(true) && d["provider"] == Str("google")
    ensures d["updated_at"] == Int(now) && d["last_login"] == Int(now)
    ensures "roles" !in d && "created_at" !in d
  {
    map["uid" := Str(uid), "email" := Str(p.email), "name" := OfOption(p.name),
        "given_name" := OfOption(p.givenName), "family_name" := OfOption(p.familyName),
        "username" := Str(username), "active" := Bool(true),
        "picture" := OfOption(p.picture), "provider" := Str("google"), "provider_sub" := OfOption(p.sub),
        "updated_at" := Int(now), "last_login" := Int(now)]
  }

  /** The document `create_or_update_from_google` leaves under `uid`: a first login gets
      roles HR_ADMIN when the collection was empty and EMPLOYEE otherwise, plus `created_at`;
      a later login keeps the stored roles (EMPLOYEE when none) and every field it does not
      write, including `created_at`. */
  function StoredUser(users: map<string, Doc>, p: GoogleProfile, uid: string, username: string, now: int): (d: Doc)
    ensures IsUserDoc(d) && "roles" in d
    ensures forall k :: k in LoginData(p, uid, username, now) ==> k in d && d[k] == LoginData(p, uid, username, now)[k]
    ensures uid !in users ==> d["roles"] == Strs(if users == map[] then ["HR_ADMIN"] else ["EMPLOYEE"])
    ensures uid !in users ==> d.Keys == LoginData(p, uid, username, now).Keys + {"roles", "created_at"}
                              && d["created_at"] == Int(now)
    ensures uid in users ==> d["roles"] == Get(users[uid], "roles", Strs(["EMPLOYEE"]))
    ensures uid in users ==> users[uid].Keys <= d.Keys
    ensures uid in users ==> forall k :: k in users[uid] && k !in LoginData(p, uid, username, now) ==> d[k] == users[uid][k]
  {
    var data := LoginData(p, uid, username, now);
    if uid !in users then
      data["roles" := Strs(if users == map[] then ["HR_ADMIN"] else ["EMPLOYEE"])]["created_at" := Int(now)]
    else
      Merge(users[uid], data["roles" := Get(users[uid], "roles", Strs(["EMPLOYEE"]))])
  }

  class UsersRepository {
    var users: map<string, Doc>

    constructor ()
      ensures users == map[]
    {
      users := map[];
    }

    /** `get_user_doc`: None for an unknown uid. */
    function GetUserDoc(uid: string): (r: Option<Doc>)
      reads this
      ensures r.None? <==> uid !in users
      ensures r.Some? ==> r.value == users[uid]
    {
      if uid in users then Some(users[uid]) else None
    }

    /** `create_or_update_from_google`: one document written, the others untouched, and the
        answer built from the document as stored. */
    method CreateOrUpdateFromGoogle(p: GoogleProfile, uid: string, now: int) returns (u: UserOut)
      modifies this
      ensures users == old(users)[uid := StoredUser(old(users), p, uid, BaseUsername(p.givenName, p.email), now)]
      ensures u == ToUserOut(users[uid])
    {
      var username := BaseUsername(p.givenName, p.email);
      var data := LoginData(p, uid, username, now);
      ghost var stored := StoredUser(users, p, uid, username, now);
      if uid !in users {
        var roles := ["EMPLOYEE"];
        if users == map[] {
          roles := ["HR_ADMIN"];
        }
        data := data["roles" := Strs(roles)]["created_at" := Int(now)];
        assert data == stored;
        users := users[uid := data];
      } else {
        var existing := users[uid];
        data := data["roles" := Get(existing, "roles", Strs(["EMPLOYEE"]))];
        assert Merge(existing, data) == stored;
        users := users[uid := Merge(existing, data)];
      }
      u := ToUserOut(users[uid]);
    }

    /** `set_roles`: overwrites `roles`, stamps `updated_at`, keeps every other field (and
        creates the document when there was none), and answers with the stored document. */
    method SetRoles(uid: string, roles: seq<string>, now: int) returns (r: Doc)
      modifies this
      ensures users.Keys == old(users).Keys + {uid}
      ensures forall k :: k in old(users) && k != uid ==> users[k] == old(users)[k]
      ensures r == users[uid] && "roles" in r && "updated_at" in r
      ensures r["roles"] == Strs(roles) && r["updated_at"] == Int(now)
      ensures uid in old(users) ==> forall k :: k in old(users)[uid] && k != "roles" && k != "updated_at"
                                             ==> k in r && r[k] == old(users)[uid][k]
      ensures uid !in old(users) ==> r.Keys == {"roles", "updated_at"}
    {
      var current: Doc := if uid in users then users[uid] else map[];
      users := users[uid := Merge(current, map["roles" := Strs(roles), "updated_at" := Int(now)])];
      r := users[uid];
    }
  }
}
