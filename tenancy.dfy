/** Company membership: the (company, role, profile) triples of a user
    account, the membership tests every controller repeats, and the two
    variants of the "manager" predicate. */
module Tenancy {
  import opened Common

  /** One entry of `user.companies`. The role becomes null when ownership of
      the company moves to someone else. */
  datatype Membership = Membership(company: Id, role: Option<Id>, profile: Id)

  /** A user account; `password` is the stored (hashed) password. */
  datatype UserAccount = UserAccount(id: Id, email: string, password: string, companies: seq<Membership>)

  /** An entry of one of an employee's embedded history lists (job
      information, education, ...). Only the fields the controllers read are
      kept apart; the rest is the opaque `details`. */
  datatype Entry = Entry(id: Id, effectiveDate: Time, reportsTo: Option<Id>, details: string)

  /** `User.findOne({_id, "companies.company": companyId})` finds the caller. */
  predicate InCompany(ms: seq<Membership>, company: Id) {
    exists i :: 0 <= i < |ms| && ms[i].company == company
  }

  /** The index `user.companies.find(c => c.company.equals(companyId))`
      returns, or |ms| when there is none. */
  function FirstFor(ms: seq<Membership>, company: Id): (k: nat)
    ensures k <= |ms|
    ensures forall j :: 0 <= j < k ==> ms[j].company != company
    ensures k < |ms| ==> ms[k].company == company
    ensures k == |ms| <==> !InCompany(ms, company)
  {
    FirstWhere(ms, (m: Membership) => m.company == company)
  }

  /** The caller's triple for the company. */
  function MembershipFor(ms: seq<Membership>, company: Id): Membership
    requires InCompany(ms, company)
  {
    ms[FirstFor(ms, company)]
  }

  /** `role.equals(owner._id)` on the caller's triple: None when the role is
      null, where the call throws. */
  function RoleIsOwner(m: Membership, ownerRole: Id): Option<bool> {
    if m.role.None? then None else Some(m.role.value == ownerRole)
  }

  /** The manager test of add/update/deleteEmployeeField: the employee's first
      stored job entry reports to the caller. */
  predicate IsManagerStrict(jobInformation: seq<Entry>, caller: Id) {
    |jobInformation| > 0 && jobInformation[0].reportsTo == Some(caller)
  }

  /** The manager test of getFoldersAndFiles, uploadProfilePicture and the
      time-off handlers: as above, but a first job entry without `reportsTo`
      also passes. */
  predicate IsManagerLenient(jobInformation: seq<Entry>, caller: Id) {
    |jobInformation| > 0 && (jobInformation[0].reportsTo.None? || jobInformation[0].reportsTo == Some(caller))
  }

  /** The two variants agree except on a first job entry with no manager, and
      neither holds for an employee with no job entries. */
  lemma ManagerVariants(jobInformation: seq<Entry>, caller: Id)
    ensures IsManagerStrict(jobInformation, caller) ==> IsManagerLenient(jobInformation, caller)
    ensures (IsManagerLenient(jobInformation, caller) && !IsManagerStrict(jobInformation, caller))
            <==> (|jobInformation| > 0 && jobInformation[0].reportsTo.None?)
    ensures jobInformation == [] ==> !IsManagerLenient(jobInformation, caller)
  {
  }

  /** `User.findById`: index of the first account with the id, or |users|. */
  function FirstUserWithId(users: seq<UserAccount>, id: Id): (k: nat)
    ensures k <= |users|
    ensures k < |users| ==> users[k].id == id
    ensures forall j :: 0 <= j < k ==> users[j].id != id
  {
    FirstWhere(users, (u: UserAccount) => u.id == id)
  }

  /** The user accounts collection. */
  class Directory {
    var users: seq<UserAccount>

    constructor (users: seq<UserAccount>)
      ensures this.users == users
    {
      this.users := users;
    }
  }
}
