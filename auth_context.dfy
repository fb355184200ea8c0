/**
 * The credential store and session state behind login and signup
 * (AuthContext.jsx). Accounts live in a map keyed by the lower-cased email;
 * the signed-in user is a record without the password. Browser storage,
 * the simulated delays and Google sign-in are not part of this model.
 */
module AuthContext {
  import opened Wrappers
  import opened Text

  const NoAccountMessage: string := "No account found with this email address"
  const WrongPasswordMessage: string := "Incorrect password. Please try again."
  const AccountExistsMessage: string := "An account with this email already exists"

  /** The user object the session exposes: the seven profile fields, never the password. */
  datatype UserRecord = UserRecord(
    id: string, email: string, name: string, avatar: Option<string>,
    memberSince: string, loyaltyTier: string, phone: string)

  /** An entry of `mockUsers`: the profile fields plus the password. */
  datatype Account = Account(profile: UserRecord, password: string)

  /** What `login` and `signup` return: `{success}` or `{success: false, error}`. */
  datatype AuthResult = AuthResult(success: bool, error: Option<string>)

  /** The outcome of a login or signup attempt before the state is touched. */
  datatype Outcome = Accepted(user: UserRecord) | Refused(message: string)

  /** The demonstration account `mockUsers` starts with. */
  function InitialUsers(): map<string, Account> {
    map["demo@flexype.com" := Account(
      UserRecord("1", "demo@flexype.com", "Sarah Johnson", None, "2023-06-15", "Gold", "+1 (555) 123-4567"),
      "Demo@123")]
  }

  /** Every account is stored under its own email, which is lower-case. */
  ghost predicate KeyedByEmail(users: map<string, Account>) {
    forall k | k in users :: users[k].profile.email == k && ToLower(k) == k
  }

  /** The checks of `login(email, password)`: the account, then the password, then the copied record. */
  function LoginDecision(users: map<string, Account>, email: string, password: string): (r: Outcome)
    ensures r == Refused(NoAccountMessage) <==> ToLower(email) !in users
    ensures r == Refused(WrongPasswordMessage) <==> ToLower(email) in users && users[ToLower(email)].password != password
    ensures r.Accepted? <==> ToLower(email) in users && users[ToLower(email)].password == password
    ensures r.Accepted? ==> r.user == users[ToLower(email)].profile
  {
    var key := ToLower(email);
    if key !in users then Refused(NoAccountMessage)
    else if users[key].password != password then Refused(WrongPasswordMessage)
    else Accepted(users[key].profile)
  }

  /** The record `signup` creates: lower-cased email, no avatar, tier Bronze, empty phone. */
  function NewUser(email: string, name: string, id: string, today: string): UserRecord {
    UserRecord(id, ToLower(email), name, None, today, "Bronze", "")
  }

  /** The check of `signup`: refused when the lower-cased email is taken. */
  function SignupDecision(users: map<string, Account>, email: string, name: string, id: string, today: string): (r: Outcome)
    ensures r == Refused(AccountExistsMessage) <==> ToLower(email) in users
    ensures r.Accepted? ==> r.user.email == ToLower(email) && r.user.loyaltyTier == "Bronze" && r.user.phone == ""
  {
    if ToLower(email) in users then Refused(AccountExistsMessage)
    else Accepted(NewUser(email, name, id, today))
  }

  /** The fields `updateProfile(updates)` may overwrite; an absent field is kept. */
  datatype ProfileUpdate = ProfileUpdate(
    name: Option<string>, avatar: Option<Option<string>>, phone: Option<string>,
    email: Option<string>, loyaltyTier: Option<string>)

  /** `{...user, ...updates}`. */
  function ApplyProfile(u: UserRecord, up: ProfileUpdate): (r: UserRecord)
    ensures r.id == u.id && r.memberSince == u.memberSince
    ensures r.name == up.name.GetOr(u.name) && r.avatar == up.avatar.GetOr(u.avatar)
    ensures r.phone == up.phone.GetOr(u.phone) && r.email == up.email.GetOr(u.email)
    ensures r.loyaltyTier == up.loyaltyTier.GetOr(u.loyaltyTier)
  {
    u.(name := up.name.GetOr(u.name), avatar := up.avatar.GetOr(u.avatar), phone := up.phone.GetOr(u.phone),
       email := up.email.GetOr(u.email), loyaltyTier := up.loyaltyTier.GetOr(u.loyaltyTier))
  }

  /** Applying the same update twice is applying it once, and an empty update changes nothing. */
  lemma ApplyProfileLaws(u: UserRecord, up: ProfileUpdate)
    ensures ApplyProfile(ApplyProfile(u, up), up) == ApplyProfile(u, up)
    ensures ApplyProfile(u, ProfileUpdate(None, None, None, None, None)) == u
  {
  }

  /** The `mockUsers` map and the `user`, `error` and `loading` state of the provider. */
  class AuthStore {
    var users: map<string, Account>
    var user: Option<UserRecord>
    var error: Option<string>
    var loading: bool

    ghost predicate Valid()
      reads this
    {
      KeyedByEmail(users)
    }

    /** The provider after mounting with no saved session. */
    constructor ()
      ensures Valid()
      ensures users == InitialUsers() && user == None && error == None && !loading
    {
      users := InitialUsers();
      user := None;
      error := None;
      loading := false;
    }

    /** `isAuthenticated`. */
    predicate IsAuthenticated()
      reads this
    {
      user.Some?
    }

    /** `login(email, password)`: on success the session holds the account's record, on failure the error message. */
    method Login(email: string, password: string) returns (r: AuthResult)
      modifies this
      ensures users == old(users) && !loading
      ensures var d := LoginDecision(old(users), email, password);
        && (d.Accepted? ==> user == Some(d.user) && error == None && r == AuthResult(true, None))
        && (d.Refused? ==> user == old(user) && error == Some(d.message) && r == AuthResult(false, Some(d.message)))
    {
      error := None;
      loading := true;
      var d := LoginDecision(users, email, password);
      if d.Accepted? {
        user := Some(d.user);
        r := AuthResult(true, None);
      } else {
        error := Some(d.message);
        r := AuthResult(false, Some(d.message));
      }
      loading := false;
    }

    /**
     * `signup({email, password, name})` with the clock's id and date passed
     * in: a new email is stored lower-cased with its password and signed in;
     * a taken one leaves the accounts and the session as they were.
     */
    method Signup(email: string, password: string, name: string, id: string, today: string) returns (r: AuthResult)
      requires Valid()
      modifies this
      ensures Valid() && !loading
      ensures var d := SignupDecision(old(users), email, name, id, today);
        && (d.Accepted? ==>
              && users == old(users)[ToLower(email) := Account(d.user, password)]
              && user == Some(d.user) && error == None && r == AuthResult(true, None))
        && (d.Refused? ==>
              && users == old(users) && user == old(user)
              && error == Some(d.message) && r == AuthResult(false, Some(d.message)))
    {
      error := None;
      loading := true;
      var d := SignupDecision(users, email, name, id, today);
      if d.Accepted? {
        ToLowerIdempotent(email);
        users := users[ToLower(email) := Account(d.user, password)];
        user := Some(d.user);
        r := AuthResult(true, None);
      } else {
        error := Some(d.message);
        r := AuthResult(false, Some(d.message));
      }
      loading := false;
    }

    /** `logout()`. */
    method Logout()
      modifies this
      ensures user == None && error == None && !IsAuthenticated()
      ensures users == old(users) && loading == old(loading)
    {
      user := None;
      error := None;
    }

    /** `clearError()`. */
    method ClearError()
      modifies this
      ensures error == None
      ensures users == old(users) && user == old(user) && loading == old(loading)
    {
      error := None;
    }

    /** `updateProfile(updates)` for a signed-in user: the record with the given fields overwritten. */
    method UpdateProfile(up: ProfileUpdate) returns (r: AuthResult)
      requires user.Some?
      modifies this
      ensures user == Some(ApplyProfile(old(user).value, up)) && r == AuthResult(true, None)
      ensures users == old(users) && error == old(error) && !loading
    {
      loading := true;
      user := Some(ApplyProfile(user.value, up));
      r := AuthResult(true, None);
      loading := false;
    }
  }

  /** Two emails that differ only in ASCII case reach the same account. */
  lemma LoginIgnoresCase(users: map<string, Account>, email: string, password: string)
    ensures LoginDecision(users, ToUpper(email), password) == LoginDecision(users, email, password)
    ensures LoginDecision(users, ToLower(email), password) == LoginDecision(users, email, password)
  {
    LowerOfUpper(email);
    ToLowerIdempotent(email);
  }

  /** After a successful signup, logging in with the same password and the email in any case is accepted with the new record. */
  lemma SignupThenLogin(users: map<string, Account>, email: string, email2: string, password: string,
                        name: string, id: string, today: string)
    requires ToLower(email2) == ToLower(email)
    requires SignupDecision(users, email, name, id, today).Accepted?
    ensures var u := SignupDecision(users, email, name, id, today).user;
      LoginDecision(users[ToLower(email) := Account(u, password)], email2, password) == Accepted(u)
  {
  }

  /** A login either succeeds or fails with one of its two messages. */
  lemma LoginOutcomes(users: map<string, Account>, email: string, password: string)
    ensures var d := LoginDecision(users, email, password);
      d.Accepted? || d.message == NoAccountMessage || d.message == WrongPasswordMessage
  {
  }

  /** The demonstration account signs in with any capitalisation of its email, and only with its password. */
  lemma DemoAccount()
    ensures LoginDecision(InitialUsers(), "Demo@FlexyPe.com", "Demo@123").Accepted?
    ensures LoginDecision(InitialUsers(), "demo@flexype.com", "demo@123") == Refused(WrongPasswordMessage)
    ensures LoginDecision(InitialUsers(), "someone@flexype.com", "Demo@123") == Refused(NoAccountMessage)
    ensures SignupDecision(InitialUsers(), "DEMO@flexype.com", "Sam", "7", "2025-01-01") == Refused(AccountExistsMessage)
  {
    DemoEmailCases();
  }

  /** The lower-cased forms of the emails the demonstration uses. */
  lemma DemoEmailCases()
    ensures ToLower("Demo@FlexyPe.com") == "demo@flexype.com"
    ensures ToLower("demo@flexype.com") == "demo@flexype.com"
    ensures ToLower("DEMO@flexype.com") == "demo@flexype.com"
    ensures ToLower("someone@flexype.com") == "someone@flexype.com"
  {
    MixedCaseEmail();
    LowerCaseEmail();
    UpperCaseEmail();
    OtherEmail();
  }

  lemma MixedCaseEmail()
    ensures ToLower("Demo@FlexyPe.com") == "demo@flexype.com"
  {
  }

  lemma LowerCaseEmail()
    ensures ToLower("demo@flexype.com") == "demo@flexype.com"
  {
  }

  lemma UpperCaseEmail()
    ensures ToLower("DEMO@flexype.com") == "demo@flexype.com"
  {
  }

  lemma OtherEmail()
    ensures ToLower("someone@flexype.com") == "someone@flexype.com"
  {
  }
}
