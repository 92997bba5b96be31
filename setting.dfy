/** controllers/setting.js: the company's option lists, its approval
    permissions, and the company-information update with owner transfer. */
module Settings {
  import opened Common
  import opened Tenancy

  /** The owner test of the option-list handlers and of updateCompanyInfo:
      one query whose two array conditions are matched independently, so
      the company and the owner role may sit on DIFFERENT membership entries. */
  predicate OwnerFilter(ms: seq<Membership>, company: Id, ownerRole: Id) {
    InCompany(ms, company) && exists j :: 0 <= j < |ms| && ms[j].role == Some(ownerRole)
  }

  /** The owner test of updateCompanyPermissions: the first entry for the
      company carries the owner role. */
  predicate OwnsFirstEntry(ms: seq<Membership>, company: Id, ownerRole: Id) {
    InCompany(ms, company) && RoleIsOwner(MembershipFor(ms, company), ownerRole) == Some(true)
  }

  /** The per-entry test implies the filter, but not the other way round:
      the owner of one company passes the filter for any company they merely
      belong to. */
  lemma OwnerTestsDiffer(ms: seq<Membership>, company: Id, ownerRole: Id)
    ensures OwnsFirstEntry(ms, company, ownerRole) ==> OwnerFilter(ms, company, ownerRole)
    ensures var other := [Membership(1, Some(ownerRole), 10), Membership(2, None, 20)];
            OwnerFilter(other, 2, ownerRole) && !OwnsFirstEntry(other, 2, ownerRole)
  {
    if OwnsFirstEntry(ms, company, ownerRole) {
      var k := FirstFor(ms, company);
      assert ms[k].role == Some(ownerRole);
    }
    var other := [Membership(1, Some(ownerRole), 10), Membership(2, None, 20)];
    assert other[0].role == Some(ownerRole);
    assert other[1].company == 2;
    assert FirstFor(other, 2) == 1;
  }

  /** The seven option lists. */
  datatype OptionCategory = Degree | Department | Division | EmploymentStatus | JobTitle | VisaType | AssetCategory

  function CategoryName(c: OptionCategory): string {
    match c
    case Degree => "degree"
    case Department => "department"
    case Division => "division"
    case EmploymentStatus => "employmentStatus"
    case JobTitle => "jobTitle"
    case VisaType => "visaType"
    case AssetCategory => "assetCategory"
  }

  /** The `allowedFields.includes(fieldName)` test of the option-list handlers. */
  function ParseCategory(s: string): (c: Option<OptionCategory>)
    ensures c.Some? ==> CategoryName(c.value) == s
    ensures c.None? ==> forall d: OptionCategory :: CategoryName(d) != s
  {
    if s == "degree" then Some(Degree)
    else if s == "department" then Some(Department)
    else if s == "division" then Some(Division)
    else if s == "employmentStatus" then Some(EmploymentStatus)
    else if s == "jobTitle" then Some(JobTitle)
    else if s == "visaType" then Some(VisaType)
    else if s == "assetCategory" then Some(AssetCategory)
    else None
  }

  lemma CategoryNamesRoundTrip(c: OptionCategory)
    ensures ParseCategory(CategoryName(c)) == Some(c)
  {
  }

  /** One option: its id, its label and its stored value. */
  datatype FieldOption = FieldOption(id: Id, labelText: string, value: string)

  /** Whether some option has the id (the `filter(...).length === 0` test). */
  predicate HasOption(s: seq<FieldOption>, id: Id) {
    exists i :: 0 <= i < |s| && s[i].id == id
  }

  /** The `map` of updateCompanyEmployeeFields: every option with the id gets
      the new label and value; the others stay as they are. */
  function Relabel(s: seq<FieldOption>, id: Id, v: string): (r: seq<FieldOption>)
    ensures |r| == |s|
    ensures forall i :: 0 <= i < |s| && s[i].id != id ==> r[i] == s[i]
    ensures forall i :: 0 <= i < |s| && s[i].id == id ==> r[i] == FieldOption(id, v, v)
  {
    if |s| == 0 then []
    else [if s[0].id == id then s[0].(labelText := v, value := v) else s[0]] + Relabel(s[1..], id, v)
  }

  /** Relabelling twice with the same value is relabelling once, and the ids
      are kept, so the option can still be found. */
  lemma RelabelStable(s: seq<FieldOption>, id: Id, v: string)
    ensures Relabel(Relabel(s, id, v), id, v) == Relabel(s, id, v)
    ensures HasOption(Relabel(s, id, v), id) <==> HasOption(s, id)
  {
    var r := Relabel(s, id, v);
    if HasOption(s, id) {
      var i :| 0 <= i < |s| && s[i].id == id;
      assert r[i].id == id;
    }
    if HasOption(r, id) {
      var i :| 0 <= i < |r| && r[i].id == id;
      assert s[i].id == id;
    }
  }

  /** The `filter` of deleteCompanyEmployeeFields. */
  function DropId(s: seq<FieldOption>, id: Id): (r: seq<FieldOption>)
    ensures forall x :: x in r <==> x in s && x.id != id
    ensures |r| <= |s|
  {
    if |s| == 0 then []
    else (if s[0].id == id then [] else [s[0]]) + DropId(s[1..], id)
  }

  /** The filter works element by element and keeps order: on a
      concatenation it is the concatenation of the two filtered parts, and
      a single option stays exactly when its id differs. */
  lemma {:induction false} DropIdAppend(a: seq<FieldOption>, b: seq<FieldOption>, id: Id)
    ensures DropId(a + b, id) == DropId(a, id) + DropId(b, id)
    ensures |a| == 1 ==> DropId(a, id) == (if a[0].id == id then [] else a)
  {
    if |a| > 0 {
      assert (a + b)[0] == a[0];
      assert (a + b)[1..] == a[1..] + b;
      DropIdAppend(a[1..], b, id);
    } else {
      assert a + b == b;
    }
    if |a| == 1 {
      assert a[1..] == [];
    }
  }

  /** After a delete no option has the id. */
  lemma DropIdRemovesAll(s: seq<FieldOption>, id: Id)
    ensures !HasOption(DropId(s, id), id)
  {
    var r := DropId(s, id);
    forall i | 0 <= i < |r|
      ensures r[i].id != id
    {
      assert r[i] in r;
    }
  }

  /** The delete keeps the options without the id in their order: with no
      option to remove, the list is unchanged. */
  lemma {:induction false} DropAbsentId(s: seq<FieldOption>, id: Id)
    requires !HasOption(s, id)
    ensures DropId(s, id) == s
  {
    if |s| > 0 {
      assert s[0].id != id;
      assert forall i :: 0 <= i < |s| - 1 ==> s[1..][i] == s[i + 1];
      DropAbsentId(s[1..], id);
      assert s == [s[0]] + s[1..];
    }
  }

  /** A delete that finds the id shortens the list. */
  lemma {:induction false} DropPresentIdShortens(s: seq<FieldOption>, id: Id)
    requires HasOption(s, id)
    ensures |DropId(s, id)| < |s|
  {
    if s[0].id != id {
      var i :| 0 <= i < |s| && s[i].id == id;
      assert s[1..][i - 1].id == id;
      DropPresentIdShortens(s[1..], id);
    }
  }

  /** A company's option lists. */
  class EmployeeFields {
    const company: Id
    var lists: map<OptionCategory, seq<FieldOption>>

    predicate Valid()
      reads this
    {
      forall c: OptionCategory :: c in lists
    }

    constructor (company: Id, lists: map<OptionCategory, seq<FieldOption>>)
      requires forall c: OptionCategory :: c in lists
      ensures this.company == company && this.lists == lists && Valid()
    {
      this.company := company;
      this.lists := lists;
    }
  }

  /** The checks the three option-list handlers share, in their order;
      `found` says whether the company has option lists. */
  function OptionGate(ms: seq<Membership>, company: Id, ownerRole: Id, fieldName: string,
                      found: bool, denied: string): (r: Result<OptionCategory>)
    ensures !OwnerFilter(ms, company, ownerRole) ==> r == Err(401, denied)
    ensures OwnerFilter(ms, company, ownerRole) && ParseCategory(fieldName).None? ==> r == Err(400, "Invalid field name")
    ensures OwnerFilter(ms, company, ownerRole) && ParseCategory(fieldName).Some? && !found
            ==> r == Err(404, "Employee fields not found for this company")
    ensures r.Ok? <==> OwnerFilter(ms, company, ownerRole) && ParseCategory(fieldName).Some? && found
    ensures r.Ok? ==> CategoryName(r.value) == fieldName
  {
    if !OwnerFilter(ms, company, ownerRole) then Err(401, denied)
    else if ParseCategory(fieldName).None? then Err(400, "Invalid field name")
    else if !found then Err(404, "Employee fields not found for this company")
    else Ok(ParseCategory(fieldName).value)
  }

  /** addCompanyEmployeeFields: push a new option whose label and value are
      both `fieldValue`. */
  method AddCompanyEmployeeField(ms: seq<Membership>, company: Id, ownerRole: Id, fieldName: string,
                                 fields: EmployeeFields?, newId: Id, fieldValue: string)
    returns (r: Result<seq<FieldOption>>)
    requires fields != null ==> fields.Valid()
    modifies fields
    ensures fields != null ==> fields.Valid()
    ensures var gate := OptionGate(ms, company, ownerRole, fieldName, fields != null, "You are not allowed to add fields");
            (gate.Err? ==> r == Err(gate.status, gate.message) && (fields != null ==> fields.lists == old(fields.lists))) &&
            (gate.Ok? ==> fields != null &&
                          fields.lists == old(fields.lists)[gate.value := old(fields.lists[gate.value]) + [FieldOption(newId, fieldValue, fieldValue)]] &&
                          r == Ok(fields.lists[gate.value]))
  {
    var gate := OptionGate(ms, company, ownerRole, fieldName, fields != null, "You are not allowed to add fields");
    if gate.Err? {
      return Err(gate.status, gate.message);
    }
    var c := gate.value;
    fields.lists := fields.lists[c := fields.lists[c] + [FieldOption(newId, fieldValue, fieldValue)]];
    r := Ok(fields.lists[c]);
  }

  /** updateCompanyEmployeeFields. */
  method UpdateCompanyEmployeeField(ms: seq<Membership>, company: Id, ownerRole: Id, fieldName: string,
                                    fields: EmployeeFields?, fieldId: Id, fieldValue: string)
    returns (r: Result<seq<FieldOption>>)
    requires fields != null ==> fields.Valid()
    modifies fields
    ensures fields != null ==> fields.Valid()
    ensures var gate := OptionGate(ms, company, ownerRole, fieldName, fields != null, "You are not allowed to update fields");
            (gate.Err? ==> r == Err(gate.status, gate.message) && (fields != null ==> fields.lists == old(fields.lists))) &&
            (gate.Ok? ==> fields != null &&
                          (!HasOption(old(fields.lists[gate.value]), fieldId) ==>
                             r == Err(404, "Field not found") && fields.lists == old(fields.lists)) &&
                          (HasOption(old(fields.lists[gate.value]), fieldId) ==>
                             fields.lists == old(fields.lists)[gate.value := Relabel(old(fields.lists[gate.value]), fieldId, fieldValue)] &&
                             r == Ok(fields.lists[gate.value])))
  {
    var gate := OptionGate(ms, company, ownerRole, fieldName, fields != null, "You are not allowed to update fields");
    if gate.Err? {
      return Err(gate.status, gate.message);
    }
    var c := gate.value;
    if !HasOption(fields.lists[c], fieldId) {
      return Err(404, "Field not found");
    }
    fields.lists := fields.lists[c := Relabel(fields.lists[c], fieldId, fieldValue)];
    r := Ok(fields.lists[c]);
  }

  /** deleteCompanyEmployeeFields. */
  method DeleteCompanyEmployeeField(ms: seq<Membership>, company: Id, ownerRole: Id, fieldName: string,
                                    fields: EmployeeFields?, fieldId: Id)
    returns (r: Result<seq<FieldOption>>)
    requires fields != null ==> fields.Valid()
    modifies fields
    ensures fields != null ==> fields.Valid()
    ensures var gate := OptionGate(ms, company, ownerRole, fieldName, fields != null, "You are not allowed to delete fields");
            (gate.Err? ==> r == Err(gate.status, gate.message) && (fields != null ==> fields.lists == old(fields.lists))) &&
            (gate.Ok? ==> fields != null &&
                          (!HasOption(old(fields.lists[gate.value]), fieldId) ==>
                             r == Err(404, "Field not found") && fields.lists == old(fields.lists)) &&
                          (HasOption(old(fields.lists[gate.value]), fieldId) ==>
                             fields.lists == old(fields.lists)[gate.value := DropId(old(fields.lists[gate.value]), fieldId)] &&
                             r == Ok(fields.lists[gate.value])))
  {
    var gate := OptionGate(ms, company, ownerRole, fieldName, fields != null, "You are not allowed to delete fields");
    if gate.Err? {
      return Err(gate.status, gate.message);
    }
    var c := gate.value;
    if !HasOption(fields.lists[c], fieldId) {
      return Err(404, "Field not found");
    }
    fields.lists := fields.lists[c := DropId(fields.lists[c], fieldId)];
    r := Ok(fields.lists[c]);
  }

  /** The six approval settings of a company. */
  datatype PermissionName = InformationUpdates | TimeOffRequests | EmploymentStatusChange | JobInformationChange | Promotion | AssetRequest

  function ParsePermissionName(s: string): Option<PermissionName> {
    if s == "informationUpdates" then Some(InformationUpdates)
    else if s == "timeOffRequests" then Some(TimeOffRequests)
    else if s == "employmentStatus" then Some(EmploymentStatusChange)
    else if s == "jobInformation" then Some(JobInformationChange)
    else if s == "promotion" then Some(Promotion)
    else if s == "assetRequest" then Some(AssetRequest)
    else None
  }

  /** The `approver` enum of the permission schema. */
  datatype Approver = Manager | AccountOwner | ManagerManager | Specific | FullAdmin

  function ParseApprover(s: string): Option<Approver> {
    if s == "manager" then Some(Manager)
    else if s == "account_owner" then Some(AccountOwner)
    else if s == "manager-manager" then Some(ManagerManager)
    else if s == "specific" then Some(Specific)
    else if s == "full_admin" then Some(FullAdmin)
    else None
  }

  datatype Permission = Permission(approver: Approver, specificPerson: Option<Id>)

  /** The entry updateCompanyPermissions stores: the specific person is kept
      only for the "specific" approver. */
  function PermissionEntry(approver: Approver, specificPerson: Option<Id>): (p: Permission)
    ensures p.approver == approver
    ensures p.specificPerson.Some? ==> approver == Specific && p.specificPerson == specificPerson
    ensures approver == Specific ==> p.specificPerson == specificPerson
  {
    Permission(approver, if approver == Specific then specificPerson else None)
  }

  /** A company document. */
  class Company {
    var name: string
    var employeeCount: string
    var country: string
    var permissions: map<PermissionName, Permission>

    constructor (name: string, employeeCount: string, country: string, permissions: map<PermissionName, Permission>)
      ensures this.name == name && this.employeeCount == employeeCount && this.country == country
      ensures this.permissions == permissions
    {
      this.name := name;
      this.employeeCount := employeeCount;
      this.country := country;
      this.permissions := permissions;
    }
  }

  /** updateCompanyPermissions. `company` is the company found by id; `ms`
      the caller's memberships, None when the caller is not a member. */
  method UpdateCompanyPermissions(company: Company?, ms: Option<seq<Membership>>, companyId: Id, ownerRole: Id,
                                  permissionName: string, approver: string, specificPerson: Option<Id>)
    returns (r: Result<map<PermissionName, Permission>>)
    requires ms.Some? ==> InCompany(ms.value, companyId)
    modifies company
    ensures company != null ==>
              company.name == old(company.name) && company.employeeCount == old(company.employeeCount) &&
              company.country == old(company.country)
    ensures company == null ==> r == Err(404, "Company not found")
    ensures company != null && ms.None? ==> r == Err(404, "User not found")
    ensures company != null && ms.Some? ==>
              var isOwner := RoleIsOwner(MembershipFor(ms.value, companyId), ownerRole);
              (isOwner.None? ==> r == Err(500, ServerError)) &&
              (isOwner == Some(false) ==> r == Err(401, "You are not allowed to update permissions")) &&
              (isOwner == Some(true) && ParsePermissionName(permissionName).None? ==> r == Err(400, "Invalid permission name")) &&
              (isOwner == Some(true) && ParsePermissionName(permissionName).Some? && ParseApprover(approver).None? ==>
                 r == Err(500, ServerError)) &&
              (isOwner == Some(true) && ParsePermissionName(permissionName).Some? && ParseApprover(approver).Some? ==>
                 company.permissions == old(company.permissions)[ParsePermissionName(permissionName).value :=
                                          PermissionEntry(ParseApprover(approver).value, specificPerson)] &&
                 r == Ok(company.permissions))
    ensures company != null && r.Err? ==> company.permissions == old(company.permissions)
  {
    if company == null {
      return Err(404, "Company not found");
    }
    if ms.None? {
      return Err(404, "User not found");
    }
    var isOwner := RoleIsOwner(MembershipFor(ms.value, companyId), ownerRole);
    if isOwner.None? {
      return Err(500, ServerError);
    }
    if !isOwner.value {
      return Err(401, "You are not allowed to update permissions");
    }
    var name := ParsePermissionName(permissionName);
    if name.None? {
      return Err(400, "Invalid permission name");
    }
    var a := ParseApprover(approver);
    if a.None? {
      return Err(500, ServerError);
    }
    company.permissions := company.permissions[name.value := PermissionEntry(a.value, specificPerson)];
    r := Ok(company.permissions);
  }

  /** The `companies.map(...)` of the owner transfer: every entry for the
      company gets the role; entries for other companies are untouched. */
  function SetRoleFor(ms: seq<Membership>, company: Id, role: Option<Id>): (r: seq<Membership>)
    ensures |r| == |ms|
    ensures forall i :: 0 <= i < |ms| && ms[i].company != company ==> r[i] == ms[i]
    ensures forall i :: 0 <= i < |ms| && ms[i].company == company ==> r[i] == ms[i].(role := role)
  {
    if |ms| == 0 then []
    else [if ms[0].company == company then ms[0].(role := role) else ms[0]] + SetRoleFor(ms[1..], company, role)
  }

  /** After the transfer the new owner passes the per-entry owner test, and
      so the filter, for the company. */
  lemma TransferMakesOwner(ms: seq<Membership>, company: Id, ownerRole: Id)
    requires InCompany(ms, company)
    ensures OwnsFirstEntry(SetRoleFor(ms, company, Some(ownerRole)), company, ownerRole)
    ensures OwnerFilter(SetRoleFor(ms, company, Some(ownerRole)), company, ownerRole)
  {
    var r := SetRoleFor(ms, company, Some(ownerRole));
    var k := FirstFor(ms, company);
    FirstWhereAgrees(ms, (m: Membership) => m.company == company, r, (m: Membership) => m.company == company);
    assert r[k].company == company && r[k].role == Some(ownerRole);
  }

  /** The previous owner keeps passing the filter test for the company only
      when they hold the owner role for some other company. */
  lemma DemotedOwnerFilter(ms: seq<Membership>, company: Id, ownerRole: Id)
    requires InCompany(ms, company)
    ensures OwnerFilter(SetRoleFor(ms, company, None), company, ownerRole) <==>
            exists j :: 0 <= j < |ms| && ms[j].company != company && ms[j].role == Some(ownerRole)
  {
    var d := SetRoleFor(ms, company, None);
    var k := FirstFor(ms, company);
    assert InCompany(d, company) by {
      assert d[k].company == company;
    }
    assert forall j :: 0 <= j < |ms| ==>
             (d[j].role == Some(ownerRole) <==> ms[j].company != company && ms[j].role == Some(ownerRole));
  }

  /** `User.findOne({"companies.company": c, "companies.profile": p})`: both
      conditions matched independently. */
  predicate CompanyAndProfile(ms: seq<Membership>, company: Id, profile: Id) {
    InCompany(ms, company) && exists j :: 0 <= j < |ms| && ms[j].profile == profile
  }

  /** The first account the query above finds, or |users|. */
  function FirstUserWith(users: seq<UserAccount>, company: Id, profile: Id): (k: nat)
    ensures k <= |users|
    ensures k < |users| ==> CompanyAndProfile(users[k].companies, company, profile)
    ensures forall j :: 0 <= j < k ==> !CompanyAndProfile(users[j].companies, company, profile)
  {
    FirstWhere(users, (u: UserAccount) => CompanyAndProfile(u.companies, company, profile))
  }

  /** The accounts after the previous owner's account (when found) loses
      the role for the company and is saved. */
  function Demoted(users: seq<UserAccount>, company: Id, pi: nat): (r: seq<UserAccount>)
    requires pi <= |users|
    ensures |r| == |users|
    ensures pi < |users| ==> r[pi] == users[pi].(companies := SetRoleFor(users[pi].companies, company, None))
    ensures forall j :: 0 <= j < |users| && j != pi ==> r[j] == users[j]
  {
    if pi < |users| then users[pi := users[pi].(companies := SetRoleFor(users[pi].companies, company, None))]
    else users
  }

  /** The accounts after the owner transfer between two different accounts:
      the previous owner's account is demoted, then the new owner's account,
      as it was read before, gets the owner role. */
  function Transferred(users: seq<UserAccount>, company: Id, ownerRole: Id, pi: nat, ni: nat): (r: seq<UserAccount>)
    requires pi <= |users| && ni < |users| && pi != ni
    ensures |r| == |users|
    ensures r[ni] == users[ni].(companies := SetRoleFor(users[ni].companies, company, Some(ownerRole)))
    ensures pi < |users| ==> r[pi] == users[pi].(companies := SetRoleFor(users[pi].companies, company, None))
    ensures forall j :: 0 <= j < |users| && j != pi && j != ni ==> r[j] == users[j]
  {
    Demoted(users, company, pi)[ni := users[ni].(companies := SetRoleFor(users[ni].companies, company, Some(ownerRole)))]
  }

  /** When one account holds both the previous and the new owner's profile,
      the version conflict leaves it demoted: its first entry for the company
      no longer carries the owner role. */
  lemma SameAccountTransferDemotes(users: seq<UserAccount>, company: Id, ownerRole: Id, pi: nat)
    requires pi < |users| && InCompany(users[pi].companies, company)
    ensures !OwnsFirstEntry(Demoted(users, company, pi)[pi].companies, company, ownerRole)
  {
    var ms := users[pi].companies;
    var d := SetRoleFor(ms, company, None);
    FirstWhereAgrees(ms, (m: Membership) => m.company == company, d, (m: Membership) => m.company == company);
  }

  /** updateCompanyInfo. `company` is the company found by id, `ownerRole`
      the owner role (None when it does not exist), `newOwner` the requested
      owner's profile id and `newOwnerProfileExists` whether that profile
      exists. On success, the owner profile id the handler answers with. */
  method UpdateCompanyInfo(company: Company?, companyId: Id, dir: Directory, callerId: Id, ownerRole: Option<Id>,
                           name: string, employeeCount: string, country: string,
                           newOwner: Id, newOwnerProfileExists: bool)
    returns (r: Result<Id>)
    modifies company, dir
    ensures company != null ==> company.permissions == old(company.permissions)
    ensures company == null ==> r == Err(404, "Company not found") && dir.users == old(dir.users)
    ensures company != null && ownerRole.None? ==>
              r == Err(404, "Role 'owner' not found") && dir.users == old(dir.users) &&
              company.name == old(company.name) && company.employeeCount == old(company.employeeCount) &&
              company.country == old(company.country)
    ensures company != null && ownerRole.Some? ==>
              var users := old(dir.users);
              var ci := FirstUserWithId(users, callerId);
              (ci == |users| || !OwnerFilter(users[ci].companies, companyId, ownerRole.value) ==>
                 r == Err(404, "You are not allowed") && dir.users == users &&
                 company.name == old(company.name) && company.employeeCount == old(company.employeeCount) &&
                 company.country == old(company.country)) &&
              (ci < |users| && OwnerFilter(users[ci].companies, companyId, ownerRole.value) ==>
                 company.name == name && company.employeeCount == employeeCount && company.country == country &&
                 var previous := MembershipFor(users[ci].companies, companyId).profile;
                 var pi := FirstUserWith(users, companyId, previous);
                 var ni := FirstUserWith(users, companyId, newOwner);
                 (previous == newOwner ==> r == Ok(newOwner) && dir.users == users) &&
                 (previous != newOwner && !newOwnerProfileExists ==>
                    r == Err(404, "New owner not found") && dir.users == users) &&
                 (previous != newOwner && newOwnerProfileExists && ni == |users| ==>
                    r == Err(404, "Employee has not completed onboarding") && dir.users == users) &&
                 (previous != newOwner && newOwnerProfileExists && ni < |users| && pi == ni ==>
                    r == Err(500, ServerError) && dir.users == Demoted(users, companyId, pi)) &&
                 (previous != newOwner && newOwnerProfileExists && ni < |users| && pi != ni ==>
                    r == Ok(newOwner) && dir.users == Transferred(users, companyId, ownerRole.value, pi, ni)))
  {
    if company == null {
      return Err(404, "Company not found");
    }
    if ownerRole.None? {
      return Err(404, "Role 'owner' not found");
    }
    var ci := FirstUserWithId(dir.users, callerId);
    if ci == |dir.users| || !OwnerFilter(dir.users[ci].companies, companyId, ownerRole.value) {
      return Err(404, "You are not allowed");
    }
    company.name := name;
    company.employeeCount := employeeCount;
    company.country := country;
    var previous := MembershipFor(dir.users[ci].companies, companyId).profile;
    if previous != newOwner {
      var pi := FirstUserWith(dir.users, companyId, previous);
      if !newOwnerProfileExists {
        return Err(404, "New owner not found");
      }
      var ni := FirstUserWith(dir.users, companyId, newOwner);
      if ni == |dir.users| {
        return Err(404, "Employee has not completed onboarding");
      }
      var newOwnerUser := dir.users[ni];
      if pi < |dir.users| {
        dir.users := dir.users[pi := dir.users[pi].(companies := SetRoleFor(dir.users[pi].companies, companyId, None))];
      }
      if pi == ni {
        // The second save carries the version read before the first one.
        return Err(500, ServerError);
      }
      dir.users := dir.users[ni := newOwnerUser.(companies := SetRoleFor(newOwnerUser.companies, companyId, Some(ownerRole.value)))];
    }
    r := Ok(newOwner);
  }
}
