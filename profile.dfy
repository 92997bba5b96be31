/** The employee profile as the controllers use it: the seven embedded
    history lists, the documents (folders), and the onboarding token. */
module Profile {
  import opened Common
  import opened Tenancy

  /** The seven history lists add/update/deleteEmployeeField may touch. */
  datatype HistoryField =
    | JobInformation | Education | VisaInfo | EmploymentStatusHistory
    | CompensationHistory | Bonuses | Assets

  /** The property name of each list on the profile document. */
  function FieldName(f: HistoryField): string {
    match f
    case JobInformation => "jobInformation"
    case Education => "education"
    case VisaInfo => "visaInfo"
    case EmploymentStatusHistory => "employmentStatusHistory"
    case CompensationHistory => "compensationHistory"
    case Bonuses => "bonuses"
    case Assets => "assets"
  }

  /** The `allowedFields.includes(fieldName)` test: the field a request names,
      or None for any other string. */
  function ParseHistoryField(s: string): (f: Option<HistoryField>)
    ensures f.Some? ==> FieldName(f.value) == s
    ensures f.None? ==> forall g: HistoryField :: FieldName(g) != s
  {
    if s == "jobInformation" then Some(JobInformation)
    else if s == "education" then Some(Education)
    else if s == "visaInfo" then Some(VisaInfo)
    else if s == "employmentStatusHistory" then Some(EmploymentStatusHistory)
    else if s == "compensationHistory" then Some(CompensationHistory)
    else if s == "bonuses" then Some(Bonuses)
    else if s == "assets" then Some(Assets)
    else None
  }

  /** The allowlist accepts exactly the seven property names, and each name
      leads back to its own list. */
  lemma FieldNamesRoundTrip(f: HistoryField)
    ensures ParseHistoryField(FieldName(f)) == Some(f)
  {
  }

  /** A folder: who created it, for whom, whether it is private, its files. */
  datatype Folder = Folder(id: Id, createdBy: Id, createdFor: Id, isPrivate: bool, files: seq<Id>)

  /** An employee profile (one per person per company). `role` is the role
      the person gets in the company when they accept the invite. */
  class EmployeeProfile {
    const id: Id
    const company: Id
    const role: Option<Id>
    var lists: map<HistoryField, seq<Entry>>
    var documents: seq<Folder>
    var onboardingToken: Option<string>
    var onboardingTokenExpires: Option<Time>

    /** Every history list is present. */
    predicate Valid()
      reads this
    {
      forall f: HistoryField :: f in lists
    }

    constructor (id: Id, company: Id, role: Option<Id>, lists: map<HistoryField, seq<Entry>>, documents: seq<Folder>)
      requires forall f: HistoryField :: f in lists
      ensures this.id == id && this.company == company && this.role == role
      ensures this.lists == lists && this.documents == documents
      ensures onboardingToken.None? && onboardingTokenExpires.None?
      ensures Valid()
    {
      this.id := id;
      this.company := company;
      this.role := role;
      this.lists := lists;
      this.documents := documents;
      onboardingToken := None;
      onboardingTokenExpires := None;
    }
  }
}
