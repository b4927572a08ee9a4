/** The user profile page: the profile record it edits, how a fetched
    profile is normalised, the single-field update an input change makes,
    the initials shown in place of a picture and the message a save leaves.
    Requests to the backend are recorded in a log; their outcomes are
    inputs. */
module UserProfile {
  import opened Js

  /** The profile as the page holds it: every field a string. */
  datatype Profile = Profile(firstName: string, lastName: string, email: string, hobby: string, language: string)

  /** The names of the form's inputs. */
  datatype Field = FirstName | LastName | Email | Hobby | Language

  function Get(p: Profile, f: Field): string {
    match f
    case FirstName => p.firstName
    case LastName => p.lastName
    case Email => p.email
    case Hobby => p.hobby
    case Language => p.language
  }

  /** Two profiles that agree on every field are the same profile. */
  lemma ProfileExtensionality(a: Profile, b: Profile)
    requires forall f :: Get(a, f) == Get(b, f)
    ensures a == b
  {
    assert Get(a, FirstName) == Get(b, FirstName) && Get(a, LastName) == Get(b, LastName);
    assert Get(a, Email) == Get(b, Email) && Get(a, Hobby) == Get(b, Hobby);
    assert Get(a, Language) == Get(b, Language);
  }

  const DefaultLanguage := "English (US)"

  /** The value a field takes when the fetched one is falsy. */
  function Default(f: Field): string {
    if f == Language then DefaultLanguage else ""
  }

  /** The profile before anything is fetched. */
  const InitialProfile := Profile("", "", "", "", DefaultLanguage)

  lemma InitialProfileIsDefaults()
    ensures forall f :: Get(InitialProfile, f) == Default(f)
  {
  }

  /** The profile JSON as the backend sends it: any field may be missing. */
  datatype ProfileData = ProfileData(firstName: Value, lastName: Value, email: Value, hobby: Value, language: Value)

  function Raw(d: ProfileData, f: Field): Value {
    match f
    case FirstName => d.firstName
    case LastName => d.lastName
    case Email => d.email
    case Hobby => d.hobby
    case Language => d.language
  }

  /** The fetched profile, field by field `data.x || default`: a falsy value
      becomes the field's default, `''` or 'English (US)' for the language. */
  function Normalize(d: ProfileData): (p: Profile)
    ensures forall f :: Truthy(Raw(d, f)) ==> Get(p, f) == Raw(d, f).s
    ensures forall f :: !Truthy(Raw(d, f)) ==> Get(p, f) == Default(f)
    ensures p.language != ""
  {
    Profile(
      OrElse(d.firstName, ""),
      OrElse(d.lastName, ""),
      OrElse(d.email, ""),
      OrElse(d.hobby, ""),
      OrElse(d.language, DefaultLanguage))
  }

  /** `JSON.stringify(profile)`, the body a save sends. */
  function Export(p: Profile): (d: ProfileData)
    ensures forall f :: Raw(d, f) == Str(Get(p, f))
  {
    ProfileData(Str(p.firstName), Str(p.lastName), Str(p.email), Str(p.hobby), Str(p.language))
  }

  /** A saved profile read back and normalised is the same profile, as long
      as its language is not empty. */
  lemma NormalizeExport(p: Profile)
    requires p.language != ""
    ensures Normalize(Export(p)) == p
  {
    var q := Normalize(Export(p));
    forall f ensures Get(q, f) == Get(p, f) {
      assert Raw(Export(p), f) == Str(Get(p, f));
    }
    ProfileExtensionality(q, p);
  }

  /** An empty reply normalises to the initial profile. */
  lemma NormalizeEmpty()
    ensures Normalize(ProfileData(Null, Null, Null, Null, Null)) == InitialProfile
  {
  }

  /** `handleChange`: `{...profile, [name]: value}`. */
  function Updated(p: Profile, f: Field, value: string): (r: Profile)
    ensures Get(r, f) == value
    ensures forall g :: g != f ==> Get(r, g) == Get(p, g)
  {
    match f
    case FirstName => p.(firstName := value)
    case LastName => p.(lastName := value)
    case Email => p.(email := value)
    case Hobby => p.(hobby := value)
    case Language => p.(language := value)
  }

  /** Writing a field's current value back changes nothing, and a second
      write to the same field overrides the first. */
  lemma {:induction false} UpdatedLaws(p: Profile, f: Field, v: string, w: string)
    ensures Updated(p, f, Get(p, f)) == p
    ensures Updated(Updated(p, f, v), f, w) == Updated(p, f, w)
  {
    ProfileExtensionality(Updated(p, f, Get(p, f)), p);
    ProfileExtensionality(Updated(Updated(p, f, v), f, w), Updated(p, f, w));
  }

  /** `charAt(0)` of a non-empty name, `''` for an empty one. */
  function Initial(name: string): (r: string)
    ensures |r| <= 1 && (r == "" <==> name == "")
    ensures name != "" ==> r[0] == name[0]
  {
    if name != "" then name[..1] else ""
  }

  /** `getInitials`: the first letters of the first and last name, upper-cased. */
  function GetInitials(p: Profile): (r: string)
    ensures |r| == (if p.firstName == "" then 0 else 1) + (if p.lastName == "" then 0 else 1)
    ensures |r| <= 2
    ensures r == "" <==> p.firstName == "" && p.lastName == ""
    ensures p.firstName != "" ==> r[0] == UpperChar(p.firstName[0])
    ensures p.lastName != "" ==> r[|r| - 1] == UpperChar(p.lastName[0])
  {
    var joined := Initial(p.firstName) + Initial(p.lastName);
    assert p.lastName != "" ==> joined[|joined| - 1] == p.lastName[0];
    ToUpperCase(joined)
  }

  /** How the write request of `handleSave` settled: ok with a JSON body,
      a non-ok status, or a rejection (network error, unreadable body). */
  datatype SaveOutcome = Saved | NotOk(status: int) | Failed

  const UpdatedMessage := "Profile updated successfully!"
  const SavedMessage := "Profile saved successfully!"
  const SaveError := "Error in saving profile"

  /** The message `handleSave` leaves. */
  function SaveMessage(outcome: SaveOutcome, hasUserId: bool): (m: string)
    ensures m == UpdatedMessage <==> outcome == Saved && hasUserId
    ensures m == SavedMessage <==> outcome == Saved && !hasUserId
    ensures m == SaveError <==> outcome != Saved
  {
    if outcome.Saved? then
      (if hasUserId then UpdatedMessage else SavedMessage)
    else SaveError
  }

  /** A request the page sends. */
  datatype Request =
    | UserDetails(token: string)
    | ReadProfile(userId: string)
    | WriteProfile(target: Value, body: ProfileData)

  predicate UserDetailsRequested(log: seq<Request>) {
    exists i :: 0 <= i < |log| && log[i].UserDetails?
  }

  /** The state of the profile page. */
  class ProfilePage {
    var message: string
    var userId: Value
    var profile: Profile
    /** Every request sent so far, in order. */
    var requests: seq<Request>

    ghost predicate Valid()
      reads this
    {
      (message == "" || message == UpdatedMessage || message == SavedMessage || message == SaveError) &&
      (userId != Null ==> UserDetailsRequested(requests)) &&
      (forall i :: 0 <= i < |requests| && requests[i].ReadProfile? ==> requests[i].userId != "")
    }

    constructor ()
      ensures Valid()
      ensures message == "" && userId == Null && profile == InitialProfile && requests == []
    {
      message := "";
      userId := Null;
      profile := InitialProfile;
      requests := [];
    }

    /** The first effect: with a stored token, fetch the user details and
      keep the user's id; a failure leaves everything but the log as it was.
      Without a token nothing is sent. */
    method LoadUserDetails(token: Value, id: Reply<Value>)
      requires Valid()
      modifies this
      ensures Valid()
      ensures Truthy(token) ==> requests == old(requests) + [UserDetails(token.s)]
      ensures !Truthy(token) ==> requests == old(requests)
      ensures userId == if Truthy(token) && id.Ok? then id.value else old(userId)
      ensures profile == old(profile) && message == old(message)
    {
      if Truthy(token) {
        var log := requests;
        requests := requests + [UserDetails(token.s)];
        assert requests[|log|].UserDetails?;
        if id.Ok? {
          userId := id.value;
        }
      }
    }

    /** The second effect: skipped while the user id is falsy; otherwise read
      the profile and keep it normalised. A rejection changes nothing else. */
    method LoadProfile(data: Reply<ProfileData>)
      requires Valid()
      modifies this
      ensures Valid()
      ensures !Truthy(userId) ==> requests == old(requests) && profile == old(profile)
      ensures Truthy(userId) ==> requests == old(requests) + [ReadProfile(userId.s)]
      ensures Truthy(userId) && data.Ok? ==> profile == Normalize(data.value)
      ensures data.Threw? ==> profile == old(profile)
      ensures userId == old(userId) && message == old(message)
    {
      if !Truthy(userId) {
        return;
      }
      var log := requests;
      requests := requests + [ReadProfile(userId.s)];
      if UserDetailsRequested(log) {
        var i :| 0 <= i < |log| && log[i].UserDetails?;
        assert requests[i] == log[i];
      }
      if data.Ok? {
        profile := Normalize(data.value);
      }
    }

    /** `handleChange`: one field takes the input's value. */
    method HandleChange(f: Field, value: string)
      requires Valid()
      modifies this
      ensures Valid()
      ensures profile == Updated(old(profile), f, value)
      ensures userId == old(userId) && message == old(message) && requests == old(requests)
    {
      profile := Updated(profile, f, value);
    }

    /** `handleSave`: send the profile as JSON to the user's write endpoint
      and leave the message for how that settled. */
    method HandleSave(outcome: SaveOutcome)
      requires Valid()
      modifies this
      ensures Valid()
      ensures requests == old(requests) + [WriteProfile(userId, Export(profile))]
      ensures message == SaveMessage(outcome, Truthy(userId))
      ensures userId == old(userId) && profile == old(profile)
    {
      var log := requests;
      requests := requests + [WriteProfile(userId, Export(profile))];
      if UserDetailsRequested(log) {
        var i :| 0 <= i < |log| && log[i].UserDetails?;
        assert requests[i] == log[i];
      }
      message := SaveMessage(outcome, Truthy(userId));
    }
  }
}
