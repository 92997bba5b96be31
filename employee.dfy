/** controllers/employee.js: the history-list edits with their access rule,
    the folder views and the privacy toggle, the file-list filter, and the
    job-history ordering of the employee listing. */
module Employee {
  import opened Common
  import opened Tenancy
  import opened Profile

  /** The authorization of add/update/deleteEmployeeField: the caller's role
      is the owner role, or the employee's first job entry reports to the
      caller's profile. None when the role is null: `role.equals` is
      evaluated first and throws. */
  function MayEdit(m: Membership, jobInformation: seq<Entry>, ownerRole: Id): Option<bool> {
    if m.role.None? then None
    else Some(m.role.value == ownerRole || IsManagerStrict(jobInformation, m.profile))
  }

  /** The checks add, update and delete share, in their order. `jobs` is the
      employee's job information, None when no employee has the employeeId
      in the company. On success, the list the request names. */
  function EditGate(ms: seq<Membership>, company: Id, ownerRole: Id, fieldName: string,
                    jobs: Option<seq<Entry>>, denied: string): (r: Result<HistoryField>)
    ensures !InCompany(ms, company) ==> r == Err(401, "User is not part of this company")
    ensures InCompany(ms, company) && ParseHistoryField(fieldName).None? ==> r == Err(400, "Field name is not allowed")
    ensures InCompany(ms, company) && ParseHistoryField(fieldName).Some? && jobs.None? ==> r == Err(404, "Employee not found")
    ensures InCompany(ms, company) && ParseHistoryField(fieldName).Some? && jobs.Some? ==>
              (MayEdit(MembershipFor(ms, company), jobs.value, ownerRole).None? ==> r == Err(500, ServerError)) &&
              (MayEdit(MembershipFor(ms, company), jobs.value, ownerRole) == Some(false) ==> r == Err(401, denied))
    ensures r.Ok? <==> InCompany(ms, company) && ParseHistoryField(fieldName).Some? && jobs.Some? &&
                       MayEdit(MembershipFor(ms, company), jobs.value, ownerRole) == Some(true)
    ensures r.Ok? ==> FieldName(r.value) == fieldName
  {
    if !InCompany(ms, company) then Err(401, "User is not part of this company")
    else if ParseHistoryField(fieldName).None? then Err(400, "Field name is not allowed")
    else if jobs.None? then Err(404, "Employee not found")
    else
      var allowed := MayEdit(MembershipFor(ms, company), jobs.value, ownerRole);
      if allowed.None? then Err(500, ServerError)
      else if !allowed.value then Err(401, denied)
      else Ok(ParseHistoryField(fieldName).value)
  }

  /** A field name outside the allowlist is refused the same way whether or
      not the employee exists: the allowlist is checked first. */
  lemma AllowlistBeforeLookup(ms: seq<Membership>, company: Id, ownerRole: Id, fieldName: string,
                              jobs: Option<seq<Entry>>, denied: string)
    requires InCompany(ms, company) && ParseHistoryField(fieldName).None?
    ensures EditGate(ms, company, ownerRole, fieldName, jobs, denied)
            == EditGate(ms, company, ownerRole, fieldName, None, denied)
            == Err(400, "Field name is not allowed")
  {
  }

  /** An owner may edit any employee's lists; anyone else only an employee
      whose first stored job entry names them as manager, which an employee
      without job entries never does. */
  lemma EditRule(m: Membership, jobInformation: seq<Entry>, ownerRole: Id)
    requires m.role.Some?
    ensures MayEdit(m, jobInformation, ownerRole) == Some(true) <==>
            m.role.value == ownerRole ||
            (|jobInformation| > 0 && jobInformation[0].reportsTo == Some(m.profile))
    ensures m.role.value != ownerRole && jobInformation == [] ==> MayEdit(m, jobInformation, ownerRole) == Some(false)
  {
  }

  /** `findIndex(item => item._id.equals(id))`, with |s| for -1. */
  function IndexOfId(s: seq<Entry>, id: Id): (k: nat)
    ensures k <= |s|
    ensures k < |s| ==> s[k].id == id
    ensures forall j :: 0 <= j < k ==> s[j].id != id
  {
    FirstWhere(s, (e: Entry) => e.id == id)
  }

  /** `splice(k, 1)`. */
  function RemovedAt(s: seq<Entry>, k: nat): (r: seq<Entry>)
    requires k < |s|
    ensures |r| == |s| - 1
    ensures forall i :: 0 <= i < k ==> r[i] == s[i]
    ensures forall i :: k <= i < |r| ==> r[i] == s[i + 1]
  {
    s[..k] + s[k + 1..]
  }

  /** Removing an element leaves the others, and only one copy of the
      removed one is gone. */
  lemma RemovedAtIsOneLess(s: seq<Entry>, k: nat)
    requires k < |s|
    ensures multiset(RemovedAt(s, k)) + multiset{s[k]} == multiset(s)
  {
    assert s == s[..k] + [s[k]] + s[k + 1..];
  }

  /** The profile fields the history-list edits do not touch. */
  predicate SameOtherFields(e: EmployeeProfile, documents: seq<Folder>, token: Option<string>, expires: Option<Time>)
    reads e
  {
    e.documents == documents && e.onboardingToken == token && e.onboardingTokenExpires == expires
  }

  /** addEmployeeField: push `value` onto the named list. */
  method AddEmployeeField(ms: seq<Membership>, company: Id, ownerRole: Id, fieldName: string,
                          employee: EmployeeProfile?, value: Entry)
    returns (r: Result<seq<Entry>>)
    requires employee != null ==> employee.Valid()
    modifies employee
    ensures employee != null ==>
              employee.Valid() &&
              SameOtherFields(employee, old(employee.documents), old(employee.onboardingToken), old(employee.onboardingTokenExpires))
    ensures var gate := EditGate(ms, company, ownerRole, fieldName,
                                 if employee == null then None else Some(old(employee.lists[JobInformation])),
                                 "User is not authorized to add employee field");
            (gate.Err? ==> r == Err(gate.status, gate.message) && (employee != null ==> employee.lists == old(employee.lists))) &&
            (gate.Ok? ==> employee != null &&
                          employee.lists == old(employee.lists)[gate.value := old(employee.lists[gate.value]) + [value]] &&
                          r == Ok(employee.lists[gate.value]))
  {
    var gate := EditGate(ms, company, ownerRole, fieldName,
                         if employee == null then None else Some(employee.lists[JobInformation]),
                         "User is not authorized to add employee field");
    if gate.Err? {
      return Err(gate.status, gate.message);
    }
    var f := gate.value;
    employee.lists := employee.lists[f := employee.lists[f] + [value]];
    r := Ok(employee.lists[f]);
  }

  /** updateEmployeeField: replace the first entry with the id. */
  method UpdateEmployeeField(ms: seq<Membership>, company: Id, ownerRole: Id, fieldName: string,
                             employee: EmployeeProfile?, fieldId: Id, value: Entry)
    returns (r: Result<seq<Entry>>)
    requires employee != null ==> employee.Valid()
    modifies employee
    ensures employee != null ==>
              employee.Valid() &&
              SameOtherFields(employee, old(employee.documents), old(employee.onboardingToken), old(employee.onboardingTokenExpires))
    ensures var gate := EditGate(ms, company, ownerRole, fieldName,
                                 if employee == null then None else Some(old(employee.lists[JobInformation])),
                                 "User is not authorized to update employee info");
            (gate.Err? ==> r == Err(gate.status, gate.message) && (employee != null ==> employee.lists == old(employee.lists))) &&
            (gate.Ok? ==> employee != null &&
                          var s := old(employee.lists[gate.value]);
                          (IndexOfId(s, fieldId) == |s| ==>
                             r == Err(404, "Field item not found") && employee.lists == old(employee.lists)) &&
                          (IndexOfId(s, fieldId) < |s| ==>
                             employee.lists == old(employee.lists)[gate.value := s[IndexOfId(s, fieldId) := value]] &&
                             r == Ok(employee.lists[gate.value])))
  {
    var gate := EditGate(ms, company, ownerRole, fieldName,
                         if employee == null then None else Some(employee.lists[JobInformation]),
                         "User is not authorized to update employee info");
    if gate.Err? {
      return Err(gate.status, gate.message);
    }
    var f := gate.value;
    var k := IndexOfId(employee.lists[f], fieldId);
    if k == |employee.lists[f]| {
      return Err(404, "Field item not found");
    }
    employee.lists := employee.lists[f := employee.lists[f][k := value]];
    r := Ok(employee.lists[f]);
  }

  /** The ASCII upper-casing `toUpperCase` applies to a first letter. */
  function UpperFirst(c: char): (u: char)
    ensures 'a' <= c <= 'z' ==> 'A' <= u <= 'Z' && u as int - c as int == 'A' as int - 'a' as int
    ensures !('a' <= c <= 'z') ==> u == c
  {
    if 'a' <= c <= 'z' then (c as int - 'a' as int + 'A' as int) as char else c
  }

  /** The success message of deleteEmployeeField: the field name with its
      first character upper-cased and its last character dropped. */
  function DeleteMessage(fieldName: string): (msg: string)
    ensures |fieldName| >= 2 ==>
              msg == [UpperFirst(fieldName[0])] + fieldName[1..|fieldName| - 1] + " deleted successfully"
    ensures |fieldName| <= 1 ==> msg == (if |fieldName| == 1 then [UpperFirst(fieldName[0])] else "") + " deleted successfully"
  {
    var head := if |fieldName| == 0 then "" else [UpperFirst(fieldName[0])];
    var middle := if |fieldName| <= 1 then "" else fieldName[1..|fieldName| - 1];
    head + middle + " deleted successfully"
  }

  /** A plural list name gives a singular message. */
  lemma DeleteMessageOfAssets()
    ensures DeleteMessage("assets") == "Asset deleted successfully"
  {
    assert UpperFirst('a') == 'A';
    assert "assets"[1..5] == "sset";
  }

  /** A name that is not a plural loses a real letter. */
  lemma DeleteMessageOfEducation()
    ensures DeleteMessage("education") == "Educatio deleted successfully"
  {
    assert UpperFirst('e') == 'E';
    assert "education"[1..8] == "ducatio";
  }

  /** deleteEmployeeField: remove the first entry with the id. */
  method DeleteEmployeeField(ms: seq<Membership>, company: Id, ownerRole: Id, fieldName: string,
                             employee: EmployeeProfile?, fieldId: Id)
    returns (r: Result<string>)
    requires employee != null ==> employee.Valid()
    modifies employee
    ensures employee != null ==>
              employee.Valid() &&
              SameOtherFields(employee, old(employee.documents), old(employee.onboardingToken), old(employee.onboardingTokenExpires))
    ensures var gate := EditGate(ms, company, ownerRole, fieldName,
                                 if employee == null then None else Some(old(employee.lists[JobInformation])),
                                 "User is not authorized to delete employee field");
            (gate.Err? ==> r == Err(gate.status, gate.message) && (employee != null ==> employee.lists == old(employee.lists))) &&
            (gate.Ok? ==> employee != null &&
                          var s := old(employee.lists[gate.value]);
                          (IndexOfId(s, fieldId) == |s| ==>
                             r == Err(404, "Field item not found") && employee.lists == old(employee.lists)) &&
                          (IndexOfId(s, fieldId) < |s| ==>
                             employee.lists == old(employee.lists)[gate.value := RemovedAt(s, IndexOfId(s, fieldId))] &&
                             r == Ok(DeleteMessage(fieldName))))
  {
    var gate := EditGate(ms, company, ownerRole, fieldName,
                         if employee == null then None else Some(employee.lists[JobInformation]),
                         "User is not authorized to delete employee field");
    if gate.Err? {
      return Err(gate.status, gate.message);
    }
    var f := gate.value;
    var k := IndexOfId(employee.lists[f], fieldId);
    if k == |employee.lists[f]| {
      return Err(404, "Field item not found");
    }
    employee.lists := employee.lists[f := RemovedAt(employee.lists[f], k)];
    r := Ok(DeleteMessage(fieldName));
  }

  /** The folder filter of getFoldersAndFiles over the folders created for
      the employee. The employee sees the public folders and those they
      created; any other caller sees the public folders and those created by
      someone other than the caller. */
  function VisibleFolders(folders: seq<Folder>, employee: Id, caller: Id): (r: seq<Folder>)
    ensures forall f :: f in r <==>
              f in folders && f.createdFor == employee &&
              (!f.isPrivate || (if caller == employee then f.createdBy == caller else f.createdBy != caller))
    ensures |r| <= |folders|
  {
    if |folders| == 0 then []
    else
      var f := folders[0];
      var keep := f.createdFor == employee &&
                  (!f.isPrivate || (if caller == employee then f.createdBy == caller else f.createdBy != caller));
      (if keep then [f] else []) + VisibleFolders(folders[1..], employee, caller)
  }

  /** As written, a manager's view keeps the private folders the employee
      created for themself and drops only the private folders the manager
      created; the employee's own view keeps neither kind of the other's. */
  lemma PrivateFolderVisibility(folders: seq<Folder>, f: Folder, employee: Id, manager: Id)
    requires f in folders && f.createdFor == employee && f.isPrivate && manager != employee
    ensures f.createdBy == employee ==> f in VisibleFolders(folders, employee, manager)
    ensures f.createdBy == manager ==> f !in VisibleFolders(folders, employee, manager)
    ensures f.createdBy == manager ==> f !in VisibleFolders(folders, employee, employee)
  {
  }

  /** getFoldersAndFiles. `employee` is the profile found for the employeeId
      in the company; `folders` the folders collection. Unlike the edits, a
      null role here only means "not the owner". */
  function GetFoldersAndFiles(ms: seq<Membership>, company: Id, ownerRole: Id,
                              employee: Option<(Id, seq<Entry>)>, folders: seq<Folder>): (r: Result<seq<Folder>>)
    ensures !InCompany(ms, company) ==> r == Err(500, ServerError)
    ensures InCompany(ms, company) && employee.None? ==> r == Err(404, "Employee not found")
    ensures InCompany(ms, company) && employee.Some? ==>
              var m := MembershipFor(ms, company);
              var allowed := IsManagerLenient(employee.value.1, m.profile) || m.role == Some(ownerRole) ||
                             m.profile == employee.value.0;
              (!allowed ==> r == Err(401, "You are not authorized to get the data")) &&
              (allowed ==> r == Ok(VisibleFolders(folders, employee.value.0, m.profile)))
  {
    if !InCompany(ms, company) then Err(500, ServerError)
    else if employee.None? then Err(404, "Employee not found")
    else
      var m := MembershipFor(ms, company);
      var (id, jobs) := employee.value;
      if !IsManagerLenient(jobs, m.profile) && m.role != Some(ownerRole) && m.profile != id then
        Err(401, "You are not authorized to get the data")
      else Ok(VisibleFolders(folders, id, m.profile))
  }

  /** The first folder of the profile's documents with the id, or |docs|. */
  function FolderIndex(docs: seq<Folder>, id: Id): (k: nat)
    ensures k <= |docs|
    ensures k < |docs| ==> docs[k].id == id
    ensures forall j :: 0 <= j < k ==> docs[j].id != id
  {
    FirstWhere(docs, (f: Folder) => f.id == id)
  }

  /** changeFolderAccessibility, on the profile the employee lookup is meant
      to return: only the folder's creator may set its privacy. */
  method ChangeFolderAccessibility(ms: seq<Membership>, company: Id, employee: EmployeeProfile?,
                                   folderId: Id, isPrivate: bool)
    returns (r: Result<Folder>)
    modifies employee
    ensures employee != null ==>
              employee.lists == old(employee.lists) &&
              employee.onboardingToken == old(employee.onboardingToken) &&
              employee.onboardingTokenExpires == old(employee.onboardingTokenExpires)
    ensures !InCompany(ms, company) ==> r == Err(500, ServerError)
    ensures InCompany(ms, company) && employee == null ==> r == Err(404, "Employee not found")
    ensures InCompany(ms, company) && employee != null ==>
              var docs := old(employee.documents);
              var k := FolderIndex(docs, folderId);
              (k == |docs| ==> r == Err(404, "Folder not found") && employee.documents == docs) &&
              (k < |docs| && docs[k].createdBy != MembershipFor(ms, company).profile ==>
                 r == Err(401, "You are not authorized to change folder accessibility") && employee.documents == docs) &&
              (k < |docs| && docs[k].createdBy == MembershipFor(ms, company).profile ==>
                 r == Ok(docs[k].(isPrivate := isPrivate)) && employee.documents == docs[k := docs[k].(isPrivate := isPrivate)])
    ensures r.Err? && employee != null ==> employee.documents == old(employee.documents)
  {
    if !InCompany(ms, company) {
      return Err(500, ServerError);
    }
    if employee == null {
      return Err(404, "Employee not found");
    }
    var k := FolderIndex(employee.documents, folderId);
    if k == |employee.documents| {
      return Err(404, "Folder not found");
    }
    var folder := employee.documents[k];
    if folder.createdBy != MembershipFor(ms, company).profile {
      return Err(401, "You are not authorized to change folder accessibility");
    }
    folder := folder.(isPrivate := isPrivate);
    employee.documents := employee.documents[k := folder];
    r := Ok(folder);
  }

  /** `folder.files.filter(f => !f.equals(fileId))`. */
  function RemoveFile(files: seq<Id>, fileId: Id): (r: seq<Id>)
    ensures forall x :: x in r <==> x in files && x != fileId
    ensures multiset(r)[fileId] == 0
    ensures forall x :: x != fileId ==> multiset(r)[x] == multiset(files)[x]
  {
    if |files| == 0 then []
    else
      assert files == [files[0]] + files[1..];
      (if files[0] == fileId then [] else [files[0]]) + RemoveFile(files[1..], fileId)
  }

  /** The filter on a list with a given head. */
  lemma RemoveFileCons(x: Id, s: seq<Id>, fileId: Id)
    ensures RemoveFile([x] + s, fileId) == (if x == fileId then [] else [x]) + RemoveFile(s, fileId)
  {
    assert ([x] + s)[1..] == s;
  }

  /** The filter keeps the stored order: it distributes over concatenation,
      and keeps a single id exactly when it is not the file's. */
  lemma {:induction false} RemoveFileAppend(a: seq<Id>, b: seq<Id>, fileId: Id)
    ensures RemoveFile(a + b, fileId) == RemoveFile(a, fileId) + RemoveFile(b, fileId)
    ensures |a| == 1 ==> RemoveFile(a, fileId) == (if a[0] != fileId then a else [])
  {
    if |a| > 0 {
      var x, t := a[0], a[1..];
      assert a == [x] + t;
      assert a + b == [x] + (t + b);
      RemoveFileCons(x, t + b, fileId);
      RemoveFileCons(x, t, fileId);
      RemoveFileAppend(t, b, fileId);
      if |a| == 1 {
        assert t == [];
        assert RemoveFile(t, fileId) == [];
      }
    } else {
      assert a + b == b;
    }
  }

  /** Removing a file that no folder entry references changes nothing. */
  lemma {:induction false} RemoveAbsentFile(files: seq<Id>, fileId: Id)
    requires fileId !in files
    ensures RemoveFile(files, fileId) == files
  {
    if |files| > 0 {
      assert files[0] != fileId;
      assert fileId !in files[1..];
      RemoveAbsentFile(files[1..], fileId);
      assert files == [files[0]] + files[1..];
    }
  }

  /** A second removal of the same file changes nothing. */
  lemma RemoveFileIdempotent(files: seq<Id>, fileId: Id)
    ensures RemoveFile(RemoveFile(files, fileId), fileId) == RemoveFile(files, fileId)
  {
    RemoveAbsentFile(RemoveFile(files, fileId), fileId);
  }

  /** deleteFile. `inDocuments` says whether the employee's documents hold
      the folder, `folder` is the folders-collection record and
      `fileExists` whether the file record exists. On success, the folder
      with every reference to the file removed. */
  function DeleteFile(ms: seq<Membership>, company: Id, employeeFound: bool, inDocuments: bool,
                      folder: Option<Folder>, fileExists: bool, fileId: Id): (r: Result<Folder>)
    ensures !InCompany(ms, company) ==> r == Err(500, ServerError)
    ensures InCompany(ms, company) && !employeeFound ==> r == Err(404, "Employee not found")
    ensures InCompany(ms, company) && employeeFound && (!inDocuments || folder.None?) ==> r == Err(404, "Folder not found")
    ensures r.Ok? <==> InCompany(ms, company) && employeeFound && inDocuments && folder.Some? && fileExists
    ensures InCompany(ms, company) && employeeFound && inDocuments && folder.Some? && !fileExists ==>
              r == Err(404, "File not found")
    ensures r.Ok? ==> r.value.id == folder.value.id && fileId !in r.value.files &&
                      forall x :: x in folder.value.files && x != fileId ==> x in r.value.files
    ensures r.Ok? ==> r.value == folder.value.(files := RemoveFile(folder.value.files, fileId))
  {
    if !InCompany(ms, company) then Err(500, ServerError)
    else if !employeeFound then Err(404, "Employee not found")
    else if !inDocuments || folder.None? then Err(404, "Folder not found")
    else if !fileExists then Err(404, "File not found")
    else Ok(folder.value.(files := RemoveFile(folder.value.files, fileId)))
  }

  /** Job entries in order of effective date, latest first. */
  predicate SortedDesc(s: seq<Entry>) {
    forall i, j :: 0 <= i < j < |s| ==> s[i].effectiveDate >= s[j].effectiveDate
  }

  /** No entry of s is dated after d. */
  predicate NoneAfter(d: Time, s: seq<Entry>) {
    forall i :: 0 <= i < |s| ==> s[i].effectiveDate <= d
  }

  /** An entry dated no earlier than a sorted list can lead it. */
  lemma PrependSorted(h: Entry, s: seq<Entry>)
    requires SortedDesc(s) && NoneAfter(h.effectiveDate, s)
    ensures SortedDesc([h] + s)
  {
    var r := [h] + s;
    forall i, j | 0 <= i < j < |r|
      ensures r[i].effectiveDate >= r[j].effectiveDate
    {
      assert r[j] == s[j - 1];
      if i > 0 {
        assert r[i] == s[i - 1];
      }
    }
  }

  /** A bound on the entries of t and on x bounds every entry of a list
      holding the entries of t and x. */
  lemma NoneAfterOfMultiset(d: Time, r: seq<Entry>, t: seq<Entry>, x: Entry)
    requires multiset(r) == multiset(t) + multiset{x}
    requires NoneAfter(d, t) && x.effectiveDate <= d
    ensures NoneAfter(d, r)
  {
    forall i | 0 <= i < |r|
      ensures r[i].effectiveDate <= d
    {
      assert r[i] in multiset(r);
      if r[i] != x {
        assert r[i] in multiset(t);
        assert r[i] in t;
      }
    }
  }

  /** Insert an entry before the first one no newer than it. The sort below
      inserts each entry into the sorted rest of the list, so an entry goes
      ahead of the equal-dated entries that followed it, and entries with
      equal dates keep their order. */
  function InsertDesc(x: Entry, s: seq<Entry>): (r: seq<Entry>)
    requires SortedDesc(s)
    ensures SortedDesc(r)
    ensures multiset(r) == multiset(s) + multiset{x}
  {
    if |s| == 0 || s[0].effectiveDate <= x.effectiveDate then
      PrependSorted(x, s);
      [x] + s
    else
      var rest := InsertDesc(x, s[1..]);
      assert s == [s[0]] + s[1..];
      NoneAfterOfMultiset(s[0].effectiveDate, rest, s[1..], x);
      PrependSorted(s[0], rest);
      [s[0]] + rest
  }

  /** The entries of s dated d, in their order in s. */
  function DatedAt(s: seq<Entry>, d: Time): (r: seq<Entry>)
    ensures |r| <= |s|
    ensures forall i :: 0 <= i < |r| ==> r[i].effectiveDate == d
  {
    if |s| == 0 then []
    else (if s[0].effectiveDate == d then [s[0]] else []) + DatedAt(s[1..], d)
  }

  /** The entries of a one-entry head followed by t, dated d. */
  lemma DatedAtCons(h: Entry, t: seq<Entry>, d: Time)
    ensures DatedAt([h] + t, d) == (if h.effectiveDate == d then [h] else []) + DatedAt(t, d)
  {
    assert ([h] + t)[1..] == t;
  }

  /** Two entries of different dates can change places without changing
      the entries of any one date. */
  lemma DatedAtSwap(h: Entry, x: Entry, t: seq<Entry>, rest: seq<Entry>, d: Time)
    requires h.effectiveDate != x.effectiveDate
    requires DatedAt(rest, d) == DatedAt([x] + t, d)
    ensures DatedAt([h] + rest, d) == DatedAt([x] + ([h] + t), d)
  {
    DatedAtCons(h, rest, d);
    DatedAtCons(x, t, d);
    DatedAtCons(h, t, d);
    DatedAtCons(x, [h] + t, d);
  }

  /** Insertion keeps the order among the entries of any one date: x lands
      after every entry strictly newer than it and before all others. */
  lemma {:induction false} InsertDescKeepsTies(x: Entry, s: seq<Entry>, d: Time)
    requires SortedDesc(s)
    ensures DatedAt(InsertDesc(x, s), d) == DatedAt([x] + s, d)
  {
    if |s| > 0 && s[0].effectiveDate > x.effectiveDate {
      var h, t := s[0], s[1..];
      assert s == [h] + t;
      InsertDescKeepsTies(x, t, d);
      DatedAtSwap(h, x, t, InsertDesc(x, t), d);
    }
  }

  /** The job-history sort is stable: for every date, the entries bearing
      it appear in the sorted list in the order they were stored. */
  lemma {:induction false} SortIsStable(s: seq<Entry>, d: Time)
    ensures DatedAt(SortByEffectiveDateDesc(s), d) == DatedAt(s, d)
  {
    if |s| > 0 {
      var t := SortByEffectiveDateDesc(s[1..]);
      InsertDescKeepsTies(s[0], t, d);
      DatedAtCons(s[0], t, d);
      SortIsStable(s[1..], d);
      assert s == [s[0]] + s[1..];
      DatedAtCons(s[0], s[1..], d);
    }
  }

  /** The job-history ordering of getCompanyEmployees: the comparator
      `effectiveDate(b) - effectiveDate(a)`, latest first, on a permutation
      of the stored list. */
  function SortByEffectiveDateDesc(s: seq<Entry>): (r: seq<Entry>)
    ensures SortedDesc(r)
    ensures multiset(r) == multiset(s)
    ensures |r| == |s|
  {
    if |s| == 0 then []
    else
      assert s == [s[0]] + s[1..];
      InsertDesc(s[0], SortByEffectiveDateDesc(s[1..]))
  }

  /** getCompanyEmployees: every employee's job history, each sorted. */
  function GetCompanyEmployees(ms: seq<Membership>, company: Id, histories: seq<seq<Entry>>): (r: Result<seq<seq<Entry>>>)
    ensures !InCompany(ms, company) ==> r == Err(401, "User is not part of this company")
    ensures InCompany(ms, company) ==>
              r.Ok? && |r.value| == |histories| &&
              forall i :: 0 <= i < |histories| ==>
                SortedDesc(r.value[i]) && multiset(r.value[i]) == multiset(histories[i])
    ensures InCompany(ms, company) ==>
              forall i, d :: 0 <= i < |histories| ==> DatedAt(r.value[i], d) == DatedAt(histories[i], d)
  {
    if !InCompany(ms, company) then Err(401, "User is not part of this company")
    else
      assert forall i, d :: 0 <= i < |histories| ==>
               DatedAt(SortByEffectiveDateDesc(histories[i]), d) == DatedAt(histories[i], d) by {
        forall i, d | 0 <= i < |histories|
          ensures DatedAt(SortByEffectiveDateDesc(histories[i]), d) == DatedAt(histories[i], d)
        {
          SortIsStable(histories[i], d);
        }
      }
      Ok(seq(|histories|, i requires 0 <= i < |histories| => SortByEffectiveDateDesc(histories[i])))
  }
}
