/** controllers/onboard.js: the onboarding invite token (issued with a
    24-hour lifetime, cleared when the email fails, consumed on accept) and
    the guards of onboarding registration and login. */
module Onboarding {
  import opened Common
  import opened Tenancy
  import opened Profile

  /** How long an invite stays valid: 24 hours in milliseconds. */
  const InviteLifetimeMs: int := 24 * 60 * 60 * 1000

  /** The invite query `{onboardingToken, onboardingTokenExpires: {$gt: now}}`
      on a profile's stored token and expiry. */
  predicate Validates(stored: Option<string>, expires: Option<Time>, token: string, now: Time) {
    stored == Some(token) && expires.Some? && expires.value > now
  }

  /** A freshly issued token validates until, and not at, its expiry. */
  lemma IssuedTokenLifetime(token: string, issuedAt: Time, now: Time)
    ensures Validates(Some(token), Some(issuedAt + InviteLifetimeMs), token, now) <==> now < issuedAt + 86400000
    ensures !Validates(Some(token), Some(issuedAt + InviteLifetimeMs), token, issuedAt + 86400000)
  {
  }

  /** A cleared token validates nothing. */
  lemma ClearedTokenRejected(token: string, now: Time)
    ensures !Validates(None, None, token, now)
  {
  }

  /** The first profile the invite query finds, or |ps|. */
  function FindByToken(ps: seq<EmployeeProfile>, token: string, now: Time): (k: nat)
    reads set i | 0 <= i < |ps| :: ps[i]
    ensures k <= |ps|
    ensures k < |ps| ==> Validates(ps[k].onboardingToken, ps[k].onboardingTokenExpires, token, now)
    ensures forall j :: 0 <= j < k ==> !Validates(ps[j].onboardingToken, ps[j].onboardingTokenExpires, token, now)
  {
    if |ps| == 0 then 0
    else if Validates(ps[0].onboardingToken, ps[0].onboardingTokenExpires, token, now) then 0
    else 1 + FindByToken(ps[1..], token, now)
  }

  /** The link the invite email carries. */
  function InviteLink(clientUrl: string, token: string): string {
    clientUrl + "/onboard/" + token
  }

  /** The link carries exactly the stored token after the fixed prefix, so
      the token read back from it is the one the profile holds. */
  lemma LinkCarriesToken(clientUrl: string, token: string)
    ensures var link := InviteLink(clientUrl, token);
            |link| == |clientUrl| + 9 + |token| && link[|clientUrl| + 9..] == token &&
            link[..|clientUrl|] == clientUrl
  {
  }

  /** sendOnboardingInvite. `companyExists` says whether the company exists,
      `employee` is the profile found for the employeeId in the company,
      `hashedToken` the hashed random token and `emailSent` the outcome of
      sending the email. `link` is the link put in the email. */
  method SendOnboardingInvite(companyExists: bool, employee: EmployeeProfile?, hashedToken: string,
                              clientUrl: string, now: Time, emailSent: bool)
    returns (r: Result<string>, link: string)
    modifies employee
    ensures employee != null ==>
              employee.lists == old(employee.lists) && employee.documents == old(employee.documents)
    ensures !companyExists ==>
              r == Err(404, "Company not found") &&
              (employee != null ==> employee.onboardingToken == old(employee.onboardingToken) &&
                                    employee.onboardingTokenExpires == old(employee.onboardingTokenExpires))
    ensures companyExists && employee == null ==> r == Err(404, "Employee not found")
    ensures companyExists && employee != null ==> link == InviteLink(clientUrl, hashedToken)
    ensures companyExists && employee != null && emailSent ==>
              r == Ok("Onboarding email sent successfully.") &&
              employee.onboardingToken == Some(hashedToken) &&
              employee.onboardingTokenExpires == Some(now + InviteLifetimeMs)
    ensures companyExists && employee != null && !emailSent ==>
              r == Err(500, "Email could not be sent") &&
              employee.onboardingToken.None? && employee.onboardingTokenExpires.None?
  {
    link := "";
    if !companyExists {
      return Err(404, "Company not found"), link;
    }
    if employee == null {
      return Err(404, "Employee not found"), link;
    }
    employee.onboardingToken := Some(hashedToken);
    employee.onboardingTokenExpires := Some(now + InviteLifetimeMs);
    link := InviteLink(clientUrl, hashedToken);
    if emailSent {
      r := Ok("Onboarding email sent successfully.");
    } else {
      employee.onboardingToken := None;
      employee.onboardingTokenExpires := None;
      r := Err(500, "Email could not be sent");
    }
  }

  /** checkOnboardExpiry. `companyNames` maps the existing companies to
      their names; on success, the name of the invite's company. */
  function CheckOnboardExpiry(ps: seq<EmployeeProfile>, token: string, now: Time, companyNames: map<Id, string>)
    : (r: Result<string>)
    reads set i | 0 <= i < |ps| :: ps[i]
    ensures token == "" ==> r == Err(400, "Invalid token")
    ensures token != "" && (forall j :: 0 <= j < |ps| ==> !Validates(ps[j].onboardingToken, ps[j].onboardingTokenExpires, token, now))
            ==> r == Err(400, "Invite token expired")
    ensures r.Ok? ==> exists j :: 0 <= j < |ps| && Validates(ps[j].onboardingToken, ps[j].onboardingTokenExpires, token, now) &&
                                  ps[j].company in companyNames && r.value == companyNames[ps[j].company]
    ensures token != "" && FindByToken(ps, token, now) < |ps| ==>
              var c := ps[FindByToken(ps, token, now)].company;
              r == (if c in companyNames then Ok(companyNames[c]) else Err(500, ServerError))
    ensures r == Err(400, "Invite token expired") <==>
              token != "" && forall j :: 0 <= j < |ps| ==> !Validates(ps[j].onboardingToken, ps[j].onboardingTokenExpires, token, now)
  {
    if token == "" then Err(400, "Invalid token")
    else
      var k := FindByToken(ps, token, now);
      if k == |ps| then Err(400, "Invite token expired")
      else if ps[k].company !in companyNames then Err(500, ServerError)
      else Ok(companyNames[ps[k].company])
  }

  /** acceptOnboardingInvite. `userId` is the signed-in user, if any. The
      invite is consumed and exactly one membership is appended, whether or
      not the user already belongs to the company. */
  method AcceptOnboardingInvite(ps: seq<EmployeeProfile>, token: string, now: Time, dir: Directory, userId: Option<Id>)
    returns (r: Result<Id>)
    modifies set i | 0 <= i < |ps| :: ps[i]
    modifies dir
    ensures forall i :: 0 <= i < |ps| ==> ps[i].lists == old(ps[i].lists) && ps[i].documents == old(ps[i].documents)
    ensures token == "" ==> r == Err(400, "Invalid token") && dir.users == old(dir.users)
    ensures token != "" && old(FindByToken(ps, token, now)) == |ps| ==>
              r == Err(400, "Invite token expired") && dir.users == old(dir.users)
    ensures token != "" && old(FindByToken(ps, token, now)) < |ps| ==>
              var k := old(FindByToken(ps, token, now));
              var users := old(dir.users);
              (userId.None? || FirstUserWithId(users, userId.value) == |users| ==>
                 r == Err(404, "User not found") && dir.users == users) &&
              (userId.Some? && FirstUserWithId(users, userId.value) < |users| ==>
                 var u := FirstUserWithId(users, userId.value);
                 r == Ok(ps[k].id) &&
                 ps[k].onboardingToken.None? && ps[k].onboardingTokenExpires.None? &&
                 dir.users == users[u := users[u].(companies := users[u].companies + [Membership(ps[k].company, ps[k].role, ps[k].id)])])
    ensures r.Err? ==> forall i :: 0 <= i < |ps| ==>
              ps[i].onboardingToken == old(ps[i].onboardingToken) &&
              ps[i].onboardingTokenExpires == old(ps[i].onboardingTokenExpires)
    ensures r.Ok? ==> forall i :: 0 <= i < |ps| && ps[i] != ps[old(FindByToken(ps, token, now))] ==>
              ps[i].onboardingToken == old(ps[i].onboardingToken) &&
              ps[i].onboardingTokenExpires == old(ps[i].onboardingTokenExpires)
  {
    if token == "" {
      return Err(400, "Invalid token");
    }
    var k := FindByToken(ps, token, now);
    if k == |ps| {
      return Err(400, "Invite token expired");
    }
    if userId.None? || FirstUserWithId(dir.users, userId.value) == |dir.users| {
      return Err(404, "User not found");
    }
    var u := FirstUserWithId(dir.users, userId.value);
    var p := ps[k];
    p.onboardingToken := None;
    p.onboardingTokenExpires := None;
    var user := dir.users[u];
    dir.users := dir.users[u := user.(companies := user.companies + [Membership(p.company, p.role, p.id)])];
    r := Ok(p.id);
  }

  /** `User.findOne({email})`: the first account with the email, or |users|. */
  function FirstUserWithEmail(users: seq<UserAccount>, email: string): (k: nat)
    ensures k <= |users|
    ensures k < |users| ==> users[k].email == email
    ensures forall j :: 0 <= j < k ==> users[j].email != email
  {
    FirstWhere(users, (u: UserAccount) => u.email == email)
  }

  /** onboardRegister: a second account with a registered email is refused;
      otherwise a new account with no memberships is added. `hashedPassword`
      stands for the bcrypt hash the User schema's pre-save hook stores in
      place of the password given. */
  method OnboardRegister(dir: Directory, email: string, hashedPassword: string, newId: Id)
    returns (r: Result<Id>)
    modifies dir
    ensures FirstUserWithEmail(old(dir.users), email) < |old(dir.users)| ==>
              r == Err(400, "User already exists") && dir.users == old(dir.users)
    ensures FirstUserWithEmail(old(dir.users), email) == |old(dir.users)| ==>
              r == Ok(newId) && dir.users == old(dir.users) + [UserAccount(newId, email, hashedPassword, [])]
  {
    if FirstUserWithEmail(dir.users, email) < |dir.users| {
      return Err(400, "User already exists");
    }
    dir.users := dir.users + [UserAccount(newId, email, hashedPassword, [])];
    r := Ok(newId);
  }

  /** onboardLogin. `matches` stands for the password check against the
      stored hash of the first account with the email. */
  function OnboardLogin(users: seq<UserAccount>, email: string, password: string, matches: bool): (r: Result<Id>)
    ensures email == "" || password == "" ==> r == Err(400, "Please provide an email and password")
    ensures email != "" && password != "" && FirstUserWithEmail(users, email) == |users| ==>
              r == Err(401, "Invalid credentials")
    ensures r.Ok? <==> email != "" && password != "" && FirstUserWithEmail(users, email) < |users| && matches
    ensures r.Ok? ==> users[FirstUserWithEmail(users, email)].id == r.value && users[FirstUserWithEmail(users, email)].email == email
  {
    if email == "" || password == "" then Err(400, "Please provide an email and password")
    else
      var k := FirstUserWithEmail(users, email);
      if k == |users| then Err(401, "Invalid credentials")
      else if !matches then Err(401, "Invalid credentials")
      else Ok(users[k].id)
  }

  /** An unknown email and a wrong password are answered alike. */
  lemma LoginFailuresIndistinguishable(users: seq<UserAccount>, email: string, password: string, known: UserAccount)
    requires email != "" && password != ""
    requires forall j :: 0 <= j < |users| ==> users[j].email != email
    requires known.email == email
    ensures OnboardLogin(users, email, password, true) == OnboardLogin([known] + users, email, password, false)
  {
    assert FirstUserWithEmail([known] + users, email) == 0;
  }
}
