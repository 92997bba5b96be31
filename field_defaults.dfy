/** constants/employeeFieldsConst.js: the default option lists, one per
    option category of the company settings. */
module FieldDefaults {
  import opened Settings

  /** A default option: the label shown and the value stored. */
  datatype DefaultOption = DefaultOption(labelText: string, value: string)

  const DegreeOptions: seq<DefaultOption> := [
    DefaultOption("Associate's", "Associate's"),
    DefaultOption("Bachelor's", "Bachelor's"),
    DefaultOption("Master's", "Master's"),
    DefaultOption("Doctorate", "Doctorate")
  ]

  const DepartmentOptions: seq<DefaultOption> := [
    DefaultOption("Engineering", "Engineering"),
    DefaultOption("Finance", "Finance"),
    DefaultOption("Human Resources", "Human Resources"),
    DefaultOption("Information Technology", "Information Technology"),
    DefaultOption("Marketing", "Marketing"),
    DefaultOption("Operations", "Operations"),
    DefaultOption("Sales", "Sales")
  ]

  const DivisionOptions: seq<DefaultOption> := [
    DefaultOption("Corporate", "Corporate"),
    DefaultOption("North America", "North America"),
    DefaultOption("Europe", "Europe"),
    DefaultOption("Asia", "Asia")
  ]

  const EmploymentStatusOptions: seq<DefaultOption> := [
    DefaultOption("Full-Time", "Full-Time"),
    DefaultOption("Part-Time", "Part-Time"),
    DefaultOption("Contract", "Contract"),
    DefaultOption("Intern", "Intern"),
    DefaultOption("Temporary", "Temporary"),
    DefaultOption("Furloughed", "Furloughed")
  ]

  const JobTitleOptions: seq<DefaultOption> := [
    DefaultOption("Software Engineer", "Software Engineer"),
    DefaultOption("Software Developer", "Software Developer"),
    DefaultOption("Accountant", "Accountant"),
    DefaultOption("HR Specialist", "HR Specialist"),
    DefaultOption("IT Specialist", "IT Specialist"),
    DefaultOption("Marketing Specialist", "Marketing Specialist"),
    DefaultOption("Operations Specialist", "Operations Specialist"),
    DefaultOption("Sales Specialist", "Sales Specialist")
  ]

  const VisaTypeOptions: seq<DefaultOption> := [
    DefaultOption("H-1B", "H-1B"),
    DefaultOption("L-1", "L-1"),
    DefaultOption("F-1", "F-1"),
    DefaultOption("J-1", "J-1"),
    DefaultOption("Green Card", "Green Card"),
    DefaultOption("Citizen", "Citizen")
  ]

  const AssetCategoryOptions: seq<DefaultOption> := [
    DefaultOption("Laptop", "Laptop"),
    DefaultOption("Desktop", "Desktop"),
    DefaultOption("Monitor", "Monitor"),
    DefaultOption("Phone", "Phone"),
    DefaultOption("Tablet", "Tablet"),
    DefaultOption("Other", "Other")
  ]

  /** The exported object: one list per category. */
  function Defaults(c: OptionCategory): seq<DefaultOption> {
    match c
    case Degree => DegreeOptions
    case Department => DepartmentOptions
    case Division => DivisionOptions
    case EmploymentStatus => EmploymentStatusOptions
    case JobTitle => JobTitleOptions
    case VisaType => VisaTypeOptions
    case AssetCategory => AssetCategoryOptions
  }

  /** The keys of the exported object, in order. */
  const ExportedNames: seq<string> :=
    ["degree", "department", "division", "employmentStatus", "jobTitle", "visaType", "assetCategory"]

  /** No two options of a list store the same value. */
  predicate DistinctValues(s: seq<DefaultOption>) {
    forall i, j :: 0 <= i < j < |s| ==> s[i].value != s[j].value
  }

  /** Every default option shows its stored value as its label. */
  lemma LabelsAreValues(c: OptionCategory)
    ensures forall i :: 0 <= i < |Defaults(c)| ==> Defaults(c)[i].labelText == Defaults(c)[i].value
  {
  }

  /** The list sizes. */
  lemma ListSizes()
    ensures |Defaults(Degree)| == 4 && |Defaults(Department)| == 7 && |Defaults(Division)| == 4
    ensures |Defaults(EmploymentStatus)| == 6 && |Defaults(JobTitle)| == 8
    ensures |Defaults(VisaType)| == 6 && |Defaults(AssetCategory)| == 6
  {
  }

  /** No list repeats a value. */
  lemma NoDuplicateValues(c: OptionCategory)
    ensures DistinctValues(Defaults(c))
  {
  }

  /** The exported categories are exactly the seven names the option-list
      handlers accept, each once. */
  lemma ExportedNamesMatchAllowlist()
    ensures |ExportedNames| == 7
    ensures forall i :: 0 <= i < |ExportedNames| ==> ParseCategory(ExportedNames[i]).Some?
    ensures forall c: OptionCategory :: CategoryName(c) in ExportedNames
    ensures forall i, j :: 0 <= i < j < |ExportedNames| ==> ExportedNames[i] != ExportedNames[j]
  {
    assert forall i :: 0 <= i < 7 ==> ExportedNames[i] == CategoryName([Degree, Department, Division, EmploymentStatus, JobTitle, VisaType, AssetCategory][i]);
  }
}
