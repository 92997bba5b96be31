/** The leave ledger of controllers/timeOff.js: time-off requests, per leave
    type balances kept on the employee profile, the approval transition, the
    manual balance adjustment, public holidays, and the two read views. */
module TimeOff {
  import opened Common
  import opened Tenancy

  datatype Status = Pending | Approved | Denied

  /** The `status` enum of the TimeOffRequest schema; any other string fails
      validation when the request is saved. */
  function ParseStatus(s: string): Option<Status> {
    if s == "Pending" then Some(Pending)
    else if s == "Approved" then Some(Approved)
    else if s == "Denied" then Some(Denied)
    else None
  }

  datatype DayHours = DayHours(date: Time, hours: int)

  /** A time-off request. `leaveType` is None for a public holiday. */
  datatype TimeOffRequest = TimeOffRequest(
    id: Id,
    employee: Id,
    leaveType: Option<Id>,
    startDate: Time,
    endDate: Option<Time>,
    hoursPerDay: seq<DayHours>,
    note: string,
    status: Status,
    requestedAt: Time,
    approvedAt: Option<Time>,
    approvedBy: Option<Id>)

  /** One entry of `employee.leaveBalances`. */
  datatype LeaveBalance = LeaveBalance(leaveType: Id, remainingHours: int)

  /** The parts of an employee profile the ledger reads and writes. */
  datatype LeaveProfile = LeaveProfile(company: Id, jobInformation: seq<Entry>, leaveBalances: seq<LeaveBalance>)

  datatype LeaveType = LeaveType(id: Id, name: string, defaultHours: int)

  /** One element of the getTimeOffDetails payload. */
  datatype LeaveDetail = LeaveDetail(leaveId: Id, leaveName: string, totalTime: int, remainingTime: int, scheduledHours: int)

  /** The sum of the hours of every day of a request. */
  function TotalHours(hs: seq<DayHours>): int {
    if |hs| == 0 then 0 else TotalHours(hs[..|hs| - 1]) + hs[|hs| - 1].hours
  }

  /** The `forEach` of the approval that subtracts each day's hours. */
  method DeductHours(remaining: int, hs: seq<DayHours>) returns (r: int)
    ensures r == remaining - TotalHours(hs)
  {
    r := remaining;
    var i := 0;
    while i < |hs|
      invariant 0 <= i <= |hs|
      invariant r == remaining - TotalHours(hs[..i])
    {
      assert hs[..i + 1][..i] == hs[..i];
      r := r - hs[i].hours;
      i := i + 1;
    }
    assert hs[..|hs|] == hs;
  }

  /** `leaveBalances.find(lb => lb.leaveType.equals(lt))`: the first balance
      for the leave type, or |bs|. A null leave type matches nothing. */
  function BalanceIndex(bs: seq<LeaveBalance>, lt: Option<Id>): (k: nat)
    ensures k <= |bs|
    ensures k < |bs| ==> Some(bs[k].leaveType) == lt
    ensures forall j :: 0 <= j < k ==> Some(bs[j].leaveType) != lt
  {
    FirstWhere(bs, (b: LeaveBalance) => Some(b.leaveType) == lt)
  }

  /** The balances after an approval that subtracts `total` hours. */
  function Deducted(bs: seq<LeaveBalance>, lt: Option<Id>, total: int): (r: seq<LeaveBalance>)
    ensures |r| == |bs|
    ensures forall i :: 0 <= i < |bs| ==> r[i].leaveType == bs[i].leaveType
    ensures forall i :: 0 <= i < |bs| && i != BalanceIndex(bs, lt) ==> r[i] == bs[i]
    ensures BalanceIndex(bs, lt) < |bs| ==>
              r[BalanceIndex(bs, lt)].remainingHours == bs[BalanceIndex(bs, lt)].remainingHours - total
    ensures BalanceIndex(bs, lt) == |bs| ==> r == bs
  {
    var k := BalanceIndex(bs, lt);
    if k < |bs| then bs[k := bs[k].(remainingHours := bs[k].remainingHours - total)] else bs
  }

  /** The balances after updateLeaveBalance adds `hours` for a leave type. */
  function Adjusted(bs: seq<LeaveBalance>, lt: Id, hours: int): (r: seq<LeaveBalance>)
    ensures BalanceIndex(bs, Some(lt)) < |bs| ==>
              |r| == |bs| &&
              r[BalanceIndex(bs, Some(lt))].remainingHours == bs[BalanceIndex(bs, Some(lt))].remainingHours + hours &&
              forall i :: 0 <= i < |bs| && i != BalanceIndex(bs, Some(lt)) ==> r[i] == bs[i]
    ensures BalanceIndex(bs, Some(lt)) == |bs| ==> r == bs + [LeaveBalance(lt, hours)]
    ensures forall i :: 0 <= i < |bs| ==> r[i].leaveType == bs[i].leaveType
  {
    var k := BalanceIndex(bs, Some(lt));
    if k < |bs| then bs[k := bs[k].(remainingHours := bs[k].remainingHours + hours)]
    else bs + [LeaveBalance(lt, hours)]
  }

  /** The hours left over all leave types. */
  function SumRemaining(bs: seq<LeaveBalance>): int {
    if |bs| == 0 then 0 else SumRemaining(bs[..|bs| - 1]) + bs[|bs| - 1].remainingHours
  }

  lemma {:induction false} SumRemainingUpdate(bs: seq<LeaveBalance>, k: nat, x: int)
    requires k < |bs|
    ensures SumRemaining(bs[k := bs[k].(remainingHours := x)]) == SumRemaining(bs) - bs[k].remainingHours + x
  {
    var bs' := bs[k := bs[k].(remainingHours := x)];
    var n := |bs| - 1;
    if k == n {
      assert bs'[..n] == bs[..n];
    } else {
      assert bs'[..n] == bs[..n][k := bs[k].(remainingHours := x)];
      SumRemainingUpdate(bs[..n], k, x);
    }
  }

  /** An approval takes exactly the request's hours out of the ledger when a
      balance for its leave type exists, and nothing otherwise. */
  lemma {:induction false} ApprovalConservesHours(bs: seq<LeaveBalance>, lt: Option<Id>, total: int)
    ensures SumRemaining(Deducted(bs, lt, total))
            == SumRemaining(bs) - (if BalanceIndex(bs, lt) < |bs| then total else 0)
  {
    var k := BalanceIndex(bs, lt);
    if k < |bs| {
      assert Deducted(bs, lt, total) == bs[k := bs[k].(remainingHours := bs[k].remainingHours - total)];
      SumRemainingUpdate(bs, k, bs[k].remainingHours - total);
    } else {
      assert Deducted(bs, lt, total) == bs;
    }
  }

  /** A manual adjustment always changes the ledger by exactly `hours`,
      whether it updates a balance or appends one. */
  lemma {:induction false} AdjustmentConservesHours(bs: seq<LeaveBalance>, lt: Id, hours: int)
    ensures SumRemaining(Adjusted(bs, lt, hours)) == SumRemaining(bs) + hours
    ensures |Adjusted(bs, lt, hours)| == if BalanceIndex(bs, Some(lt)) < |bs| then |bs| else |bs| + 1
  {
    var k := BalanceIndex(bs, Some(lt));
    if k < |bs| {
      SumRemainingUpdate(bs, k, bs[k].remainingHours + hours);
    } else {
      assert (bs + [LeaveBalance(lt, hours)])[..|bs|] == bs;
    }
  }

  /** Nothing guards against approving twice: a second approval of the same
      request subtracts its hours a second time. */
  lemma ApprovedTwiceDeductsTwice(bs: seq<LeaveBalance>, lt: Option<Id>, total: int)
    requires BalanceIndex(bs, lt) < |bs|
    ensures var k := BalanceIndex(bs, lt);
            var twice := Deducted(Deducted(bs, lt, total), lt, total);
            BalanceIndex(Deducted(bs, lt, total), lt) == k &&
            twice[k].remainingHours == bs[k].remainingHours - 2 * total
  {
    var d := Deducted(bs, lt, total);
    FirstWhereAgrees(bs, (b: LeaveBalance) => Some(b.leaveType) == lt, d, (b: LeaveBalance) => Some(b.leaveType) == lt);
  }

  /** The worked example: a balance of 56 hours and an approved 8-hour day
      leave 48. */
  lemma FiftySixMinusEight(lt: Id, day: Time)
    ensures Deducted([LeaveBalance(lt, 56)], Some(lt), TotalHours([DayHours(day, 8)])) == [LeaveBalance(lt, 48)]
  {
    assert [DayHours(day, 8)][..0] == [];
  }

  /** The authorization of the approval (and of updateLeaveBalance): the
      lenient manager test on the CALLER'S OWN profile, or the owner role.
      None when the caller's role is null, where `role.equals` throws. */
  function ManagerOrOwner(own: LeaveProfile, m: Membership, ownerRole: Id): Option<bool> {
    if m.role.None? then None
    else Some(IsManagerLenient(own.jobInformation, m.profile) || m.role.value == ownerRole)
  }

  /** Whoever's request it is, a caller whose own first job entry reports to
      them, or names no manager, passes the check. */
  lemma OwnJobEntryAuthorizes(own: LeaveProfile, m: Membership, ownerRole: Id)
    requires m.role.Some? && |own.jobInformation| > 0
    requires own.jobInformation[0].reportsTo.None? || own.jobInformation[0].reportsTo == Some(m.profile)
    ensures ManagerOrOwner(own, m, ownerRole) == Some(true)
  {
  }

  /** The request a public holiday builds for one employee. */
  function HolidayRequest(id: Id, employee: Id, date: Time, approver: Id, now: Time): TimeOffRequest {
    TimeOffRequest(id, employee, None, date, Some(date), [DayHours(date, 8)], "", Approved, now, Some(now), Some(approver))
  }

  /** addPublicHoliday. `callerFound` says whether the caller's own profile
      exists in the company, `employees` are the company's profiles and
      `freshIds` the new request ids. The result holds the requests the loop
      builds; none is stored (see README). */
  method AddPublicHoliday(ms: seq<Membership>, company: Id, callerFound: bool, ownerRole: Id,
                          employees: seq<Id>, freshIds: seq<Id>, date: Time, approver: Id, now: Time)
    returns (r: Result<seq<TimeOffRequest>>)
    requires |freshIds| == |employees|
    ensures !InCompany(ms, company) ==> r == Err(401, "User is not part of this company")
    ensures InCompany(ms, company) && !callerFound ==> r == Err(404, "Employee not found")
    ensures InCompany(ms, company) && callerFound && RoleIsOwner(MembershipFor(ms, company), ownerRole).None?
            ==> r == Err(500, ServerError)
    ensures InCompany(ms, company) && callerFound && RoleIsOwner(MembershipFor(ms, company), ownerRole) == Some(false)
            ==> r == Err(401, "You are not authorized to get the data")
    ensures InCompany(ms, company) && callerFound && RoleIsOwner(MembershipFor(ms, company), ownerRole) == Some(true)
            ==> r.Ok? && |r.value| == |employees| &&
                forall i :: 0 <= i < |employees| ==>
                  r.value[i].employee == employees[i] && r.value[i].status == Approved &&
                  r.value[i].startDate == date && r.value[i].endDate == Some(date) &&
                  r.value[i].hoursPerDay == [DayHours(date, 8)] && r.value[i].leaveType.None? &&
                  r.value[i].approvedBy == Some(approver)
  {
    if !InCompany(ms, company) {
      return Err(401, "User is not part of this company");
    }
    if !callerFound {
      return Err(404, "Employee not found");
    }
    var isOwner := RoleIsOwner(MembershipFor(ms, company), ownerRole);
    if isOwner.None? {
      return Err(500, ServerError);
    }
    if !isOwner.value {
      return Err(401, "You are not authorized to get the data");
    }
    var built: seq<TimeOffRequest> := [];
    var i := 0;
    while i < |employees|
      invariant 0 <= i <= |employees|
      invariant |built| == i
      invariant forall j :: 0 <= j < i ==> built[j] == HolidayRequest(freshIds[j], employees[j], date, approver, now)
    {
      built := built + [HolidayRequest(freshIds[i], employees[i], date, approver, now)];
      i := i + 1;
    }
    r := Ok(built);
  }

  /** The hours of one request that getTimeOffDetails schedules against a
      leave type: any status, starting today or later. */
  function ScheduledOf(req: TimeOffRequest, lt: Id, startOfToday: Time): int {
    if req.leaveType == Some(lt) && req.startDate >= startOfToday then TotalHours(req.hoursPerDay) else 0
  }

  /** The scheduled hours of a leave type over an employee's requests. */
  function ScheduledFor(reqs: seq<TimeOffRequest>, lt: Id, startOfToday: Time): int {
    if |reqs| == 0 then 0 else ScheduledFor(reqs[..|reqs| - 1], lt, startOfToday) + ScheduledOf(reqs[|reqs| - 1], lt, startOfToday)
  }

  /** The status of a request plays no part in the scheduled hours: pending,
      approved and denied requests all count. */
  lemma {:induction false} ScheduledIgnoresStatus(reqs: seq<TimeOffRequest>, reqs': seq<TimeOffRequest>, lt: Id, startOfToday: Time)
    requires |reqs| == |reqs'|
    requires forall i :: 0 <= i < |reqs| ==>
               reqs'[i].leaveType == reqs[i].leaveType && reqs'[i].startDate == reqs[i].startDate &&
               reqs'[i].hoursPerDay == reqs[i].hoursPerDay
    ensures ScheduledFor(reqs, lt, startOfToday) == ScheduledFor(reqs', lt, startOfToday)
  {
    if |reqs| > 0 {
      ScheduledIgnoresStatus(reqs[..|reqs| - 1], reqs'[..|reqs| - 1], lt, startOfToday);
    }
  }

  /** Some request starting today or later has no leave type. */
  predicate HasUntypedUpcoming(reqs: seq<TimeOffRequest>, startOfToday: Time) {
    exists i :: 0 <= i < |reqs| && reqs[i].leaveType.None? && reqs[i].startDate >= startOfToday
  }

  /** `leaveBalances.find(...) || {remainingHours: 0}`. */
  function RemainingFor(bs: seq<LeaveBalance>, lt: Id): int {
    var k := BalanceIndex(bs, Some(lt));
    if k < |bs| then bs[k].remainingHours else 0
  }

  /** The `leavePolicy.leaveTypes.map(...)` of getTimeOffDetails. */
  function LeaveDetails(types: seq<LeaveType>, bs: seq<LeaveBalance>, reqs: seq<TimeOffRequest>, startOfToday: Time)
    : (r: seq<LeaveDetail>)
    ensures |r| == |types|
    ensures forall i :: 0 <= i < |types| ==>
              r[i].leaveId == types[i].id && r[i].leaveName == types[i].name &&
              r[i].totalTime == types[i].defaultHours
    ensures forall i :: 0 <= i < |types| ==>
              r[i].remainingTime == RemainingFor(bs, types[i].id) &&
              r[i].scheduledHours == ScheduledFor(reqs, types[i].id, startOfToday)
  {
    if |types| == 0 then []
    else
      var t := types[0];
      [LeaveDetail(t.id, t.name, t.defaultHours, RemainingFor(bs, t.id), ScheduledFor(reqs, t.id, startOfToday))]
      + LeaveDetails(types[1..], bs, reqs, startOfToday)
  }

  /** With no balance for a leave type and no upcoming requests, its entry
      shows 0 remaining hours (not the policy's default) and 0 scheduled. */
  lemma FreshEmployeeDetails(types: seq<LeaveType>, startOfToday: Time, i: nat)
    requires i < |types|
    ensures LeaveDetails(types, [], [], startOfToday)[i].remainingTime == 0
    ensures LeaveDetails(types, [], [], startOfToday)[i].scheduledHours == 0
    ensures LeaveDetails(types, [], [], startOfToday)[i].totalTime == types[i].defaultHours
  {
  }

  /** `TimeOffRequest.find({employee})`. */
  function OfEmployee(reqs: seq<TimeOffRequest>, e: Id): (r: seq<TimeOffRequest>)
    ensures forall x :: x in r <==> x in reqs && x.employee == e
  {
    if |reqs| == 0 then []
    else (if reqs[0].employee == e then [reqs[0]] else []) + OfEmployee(reqs[1..], e)
  }

  /** Requests whose end date is now or later. */
  function Scheduled(reqs: seq<TimeOffRequest>, now: Time): (r: seq<TimeOffRequest>)
    ensures forall x :: x in r <==> x in reqs && x.endDate.Some? && x.endDate.value >= now
  {
    if |reqs| == 0 then []
    else (if reqs[0].endDate.Some? && reqs[0].endDate.value >= now then [reqs[0]] else []) + Scheduled(reqs[1..], now)
  }

  /** Requests whose end date is before now. */
  function History(reqs: seq<TimeOffRequest>, now: Time): (r: seq<TimeOffRequest>)
    ensures forall x :: x in r <==> x in reqs && x.endDate.Some? && x.endDate.value < now
  {
    if |reqs| == 0 then []
    else (if reqs[0].endDate.Some? && reqs[0].endDate.value < now then [reqs[0]] else []) + History(reqs[1..], now)
  }

  /** The query result keeps the stored order: it distributes over
      concatenation, and keeps a single request exactly when it is the
      employee's. */
  lemma {:induction false} OfEmployeeAppend(a: seq<TimeOffRequest>, b: seq<TimeOffRequest>, e: Id)
    ensures OfEmployee(a + b, e) == OfEmployee(a, e) + OfEmployee(b, e)
    ensures |a| == 1 ==> OfEmployee(a, e) == (if a[0].employee == e then a else [])
  {
    if |a| > 0 {
      assert (a + b)[0] == a[0];
      assert (a + b)[1..] == a[1..] + b;
      OfEmployeeAppend(a[1..], b, e);
    } else {
      assert a + b == b;
    }
    if |a| == 1 {
      assert a[1..] == [];
    }
  }

  /** The scheduled filter keeps the stored order: it distributes over
      concatenation, and keeps a single request exactly when it ends now or
      later. */
  lemma {:induction false} ScheduledAppend(a: seq<TimeOffRequest>, b: seq<TimeOffRequest>, now: Time)
    ensures Scheduled(a + b, now) == Scheduled(a, now) + Scheduled(b, now)
    ensures |a| == 1 ==> Scheduled(a, now) == (if a[0].endDate.Some? && a[0].endDate.value >= now then a else [])
  {
    if |a| > 0 {
      assert (a + b)[0] == a[0];
      assert (a + b)[1..] == a[1..] + b;
      ScheduledAppend(a[1..], b, now);
    } else {
      assert a + b == b;
    }
    if |a| == 1 {
      assert a[1..] == [];
    }
  }

  /** The history filter keeps the stored order: it distributes over
      concatenation, and keeps a single request exactly when it ended before
      now. */
  lemma {:induction false} HistoryAppend(a: seq<TimeOffRequest>, b: seq<TimeOffRequest>, now: Time)
    ensures History(a + b, now) == History(a, now) + History(b, now)
    ensures |a| == 1 ==> History(a, now) == (if a[0].endDate.Some? && a[0].endDate.value < now then a else [])
  {
    if |a| > 0 {
      assert (a + b)[0] == a[0];
      assert (a + b)[1..] == a[1..] + b;
      HistoryAppend(a[1..], b, now);
    } else {
      assert a + b == b;
    }
    if |a| == 1 {
      assert a[1..] == [];
    }
  }

  /** Requests without an end date. */
  function Undated(reqs: seq<TimeOffRequest>): seq<TimeOffRequest> {
    if |reqs| == 0 then []
    else (if reqs[0].endDate.None? then [reqs[0]] else []) + Undated(reqs[1..])
  }

  /** Scheduled and history never share a request, and together with the
      requests that have no end date (which land in neither) they are
      exactly the employee's requests. */
  lemma {:induction false} PartitionIsExact(reqs: seq<TimeOffRequest>, now: Time)
    ensures multiset(Scheduled(reqs, now)) + multiset(History(reqs, now)) + multiset(Undated(reqs)) == multiset(reqs)
    ensures forall x :: x in Scheduled(reqs, now) ==> x !in History(reqs, now)
  {
    if |reqs| > 0 {
      PartitionIsExact(reqs[1..], now);
      assert reqs == [reqs[0]] + reqs[1..];
    }
  }

  /** The index of the first request with the id, or |reqs|. */
  function FirstRequestWithId(reqs: seq<TimeOffRequest>, id: Id): (k: nat)
    ensures k <= |reqs|
    ensures k < |reqs| ==> reqs[k].id == id
    ensures forall j :: 0 <= j < k ==> reqs[j].id != id
  {
    FirstWhere(reqs, (r: TimeOffRequest) => r.id == id)
  }

  /** The getTimeOffRequests payload. */
  datatype RequestLists = RequestLists(scheduled: seq<TimeOffRequest>, history: seq<TimeOffRequest>)

  /** The time-off requests and the employee profiles' leave data. */
  class LeaveLedger {
    var requests: seq<TimeOffRequest>
    var profiles: map<Id, LeaveProfile>

    constructor (requests: seq<TimeOffRequest>, profiles: map<Id, LeaveProfile>)
      ensures this.requests == requests && this.profiles == profiles
    {
      this.requests := requests;
      this.profiles := profiles;
    }

    /** `EmployeeProfile.findOne({_id, company})`. */
    predicate HasProfile(id: Id, company: Id)
      reads this
    {
      id in profiles && profiles[id].company == company
    }

    /** requestTimeOff. `target` is the profile found for the employeeId in
        the company, `newId` the new request's id. */
    method RequestTimeOff(ms: seq<Membership>, company: Id, target: Option<Id>, leaveTypeId: Id,
                          startDate: Time, endDate: Option<Time>, dayHours: seq<DayHours>, note: string,
                          newId: Id, now: Time)
      returns (r: Result<TimeOffRequest>)
      modifies this
      ensures profiles == old(profiles)
      ensures !InCompany(ms, company) ==> r == Err(401, "User is not part of this company") && requests == old(requests)
      ensures InCompany(ms, company) && target.None? ==> r == Err(404, "Employee not found") && requests == old(requests)
      ensures InCompany(ms, company) && target.Some? && MembershipFor(ms, company).profile != target.value
              ==> r == Err(401, "You are not authorized") && requests == old(requests)
      ensures InCompany(ms, company) && target.Some? && MembershipFor(ms, company).profile == target.value
              ==> r.Ok? && requests == old(requests) + [r.value] &&
                  r.value.employee == target.value && r.value.leaveType == Some(leaveTypeId) &&
                  r.value.startDate == startDate && r.value.endDate == endDate &&
                  r.value.hoursPerDay == dayHours && r.value.status == Pending &&
                  r.value.approvedAt.None? && r.value.approvedBy.None?
    {
      if !InCompany(ms, company) {
        return Err(401, "User is not part of this company");
      }
      if target.None? {
        return Err(404, "Employee not found");
      }
      if MembershipFor(ms, company).profile != target.value {
        return Err(401, "You are not authorized");
      }
      var req := TimeOffRequest(newId, target.value, Some(leaveTypeId), startDate, endDate, dayHours, note,
                                Pending, now, None, None);
      requests := requests + [req];
      r := Ok(req);
    }

    /** `TimeOffRequest.findById`: the first request with the id, or |requests|. */
    function RequestIndex(id: Id): (k: nat)
      reads this
      ensures k <= |requests|
      ensures k < |requests| ==> requests[k].id == id
      ensures k == |requests| ==> forall j :: 0 <= j < |requests| ==> requests[j].id != id
    {
      FirstRequestWithId(requests, id)
    }

    /** The approval transition of approveDenyTimeOff (after its checks):
        set status, approvedAt and approvedBy, and on "Approved" subtract the
        request's hours from the first matching balance. The current status
        is not checked. */
    method ApproveDeny(requestId: Id, status: string, approverUser: Id, now: Time)
      returns (r: Result<TimeOffRequest>)
      modifies this
      ensures old(RequestIndex(requestId)) == |old(requests)|
              ==> r == Err(404, "Time off request not found") && requests == old(requests) && profiles == old(profiles)
      ensures old(RequestIndex(requestId)) < |old(requests)| && ParseStatus(status).None?
              ==> r == Err(500, ServerError) && requests == old(requests) && profiles == old(profiles)
      ensures old(RequestIndex(requestId)) < |old(requests)| && ParseStatus(status).Some? ==>
                var k := old(RequestIndex(requestId));
                var req := old(requests)[k];
                var updated := req.(status := ParseStatus(status).value, approvedAt := Some(now), approvedBy := Some(approverUser));
                requests == old(requests)[k := updated] &&
                (ParseStatus(status) != Some(Approved) ==> r == Ok(updated) && profiles == old(profiles)) &&
                (ParseStatus(status) == Some(Approved) && req.employee !in old(profiles) ==>
                   r == Err(500, ServerError) && profiles == old(profiles)) &&
                (ParseStatus(status) == Some(Approved) && req.employee in old(profiles) ==>
                   var p := old(profiles)[req.employee];
                   r == Ok(updated) &&
                   profiles == old(profiles)[req.employee := p.(leaveBalances := Deducted(p.leaveBalances, req.leaveType, TotalHours(req.hoursPerDay)))])
    {
      var k := RequestIndex(requestId);
      if k == |requests| {
        return Err(404, "Time off request not found");
      }
      var s := ParseStatus(status);
      if s.None? {
        return Err(500, ServerError);
      }
      var req := requests[k];
      var updated := req.(status := s.value, approvedAt := Some(now), approvedBy := Some(approverUser));
      requests := requests[k := updated];
      if s.value == Approved {
        if req.employee !in profiles {
          return Err(500, ServerError);
        }
        var p := profiles[req.employee];
        var bs := p.leaveBalances;
        var b := BalanceIndex(bs, req.leaveType);
        if b < |bs| {
          var left := DeductHours(bs[b].remainingHours, req.hoursPerDay);
          bs := bs[b := bs[b].(remainingHours := left)];
          profiles := profiles[req.employee := p.(leaveBalances := bs)];
        }
      }
      r := Ok(updated);
    }

    /** updateLeaveBalance. The balance changed is the CALLER'S own profile's;
        `employeeId` (from the URL) is not used. */
    method UpdateLeaveBalance(ms: seq<Membership>, company: Id, ownerRole: Id, employeeId: string,
                              leaveTypeId: Id, hours: int)
      returns (r: Result<seq<LeaveBalance>>)
      modifies this
      ensures requests == old(requests)
      ensures !InCompany(ms, company) ==> r == Err(500, ServerError) && profiles == old(profiles)
      ensures InCompany(ms, company) && !old(HasProfile(MembershipFor(ms, company).profile, company))
              ==> r == Err(404, "Employee not found") && profiles == old(profiles)
      ensures InCompany(ms, company) && old(HasProfile(MembershipFor(ms, company).profile, company)) ==>
                var m := MembershipFor(ms, company);
                var p := old(profiles)[m.profile];
                (ManagerOrOwner(p, m, ownerRole).None? ==> r == Err(500, ServerError) && profiles == old(profiles)) &&
                (ManagerOrOwner(p, m, ownerRole) == Some(false) ==>
                   r == Err(401, "You are not authorized to get the data") && profiles == old(profiles)) &&
                (ManagerOrOwner(p, m, ownerRole) == Some(true) ==>
                   r == Ok(Adjusted(p.leaveBalances, leaveTypeId, hours)) &&
                   profiles == old(profiles)[m.profile := p.(leaveBalances := Adjusted(p.leaveBalances, leaveTypeId, hours))])
    {
      if !InCompany(ms, company) {
        return Err(500, ServerError);
      }
      var m := MembershipFor(ms, company);
      if !HasProfile(m.profile, company) {
        return Err(404, "Employee not found");
      }
      var p := profiles[m.profile];
      var allowed := ManagerOrOwner(p, m, ownerRole);
      if allowed.None? {
        return Err(500, ServerError);
      }
      if !allowed.value {
        return Err(401, "You are not authorized to get the data");
      }
      var bs := p.leaveBalances;
      var k := BalanceIndex(bs, Some(leaveTypeId));
      if k < |bs| {
        bs := bs[k := bs[k].(remainingHours := bs[k].remainingHours + hours)];
      } else {
        bs := bs + [LeaveBalance(leaveTypeId, hours)];
      }
      profiles := profiles[m.profile := p.(leaveBalances := bs)];
      r := Ok(bs);
    }

    /** getTimeOffDetails. `policyTypes` are the leave types of the
        employee's policy (None when the policy is missing); `startOfToday`
        is today's 00:00. The filter on leave types throws on an upcoming
        request without one. */
    function GetTimeOffDetails(ms: seq<Membership>, company: Id, target: Option<Id>,
                               policyTypes: Option<seq<LeaveType>>, startOfToday: Time): (r: Result<seq<LeaveDetail>>)
      reads this
      ensures !InCompany(ms, company) ==> r == Err(401, "You are not part of this company")
      ensures InCompany(ms, company) && (target.None? || target.value !in profiles) ==> r == Err(404, "Employee not found")
      ensures InCompany(ms, company) && target.Some? && target.value in profiles && policyTypes.None? ==> r == Err(500, ServerError)
      ensures r.Ok? ==>
                |r.value| == |policyTypes.value| &&
                forall i :: 0 <= i < |policyTypes.value| ==>
                  r.value[i].leaveId == policyTypes.value[i].id &&
                  r.value[i].leaveName == policyTypes.value[i].name &&
                  r.value[i].totalTime == policyTypes.value[i].defaultHours &&
                  r.value[i].remainingTime == RemainingFor(profiles[target.value].leaveBalances, policyTypes.value[i].id) &&
                  r.value[i].scheduledHours == ScheduledFor(OfEmployee(requests, target.value), policyTypes.value[i].id, startOfToday)
      ensures r.Ok? ==>
                r.value == LeaveDetails(policyTypes.value, profiles[target.value].leaveBalances,
                                        OfEmployee(requests, target.value), startOfToday)
      ensures InCompany(ms, company) && target.Some? && target.value in profiles && policyTypes.Some? ==>
                (r.Ok? <==> |policyTypes.value| == 0 || !HasUntypedUpcoming(OfEmployee(requests, target.value), startOfToday))
    {
      if !InCompany(ms, company) then Err(401, "You are not part of this company")
      else if target.None? || target.value !in profiles then Err(404, "Employee not found")
      else if policyTypes.None? then Err(500, ServerError)
      else
        var mine := OfEmployee(requests, target.value);
        if |policyTypes.value| > 0 && HasUntypedUpcoming(mine, startOfToday) then Err(500, ServerError)
        else Ok(LeaveDetails(policyTypes.value, profiles[target.value].leaveBalances, mine, startOfToday))
    }

    /** getTimeOffRequests. */
    function GetTimeOffRequests(ms: seq<Membership>, company: Id, target: Option<Id>, now: Time): (r: Result<RequestLists>)
      reads this
      ensures !InCompany(ms, company) ==> r == Err(401, "You are not part of this company")
      ensures InCompany(ms, company) && target.None? ==> r == Err(404, "Employee not found")
      ensures r.Ok? ==>
                (forall x :: x in r.value.scheduled <==>
                   x in requests && x.employee == target.value && x.endDate.Some? && x.endDate.value >= now) &&
                (forall x :: x in r.value.history <==>
                   x in requests && x.employee == target.value && x.endDate.Some? && x.endDate.value < now)
      ensures r.Ok? ==>
                var mine := OfEmployee(requests, target.value);
                r.value == RequestLists(Scheduled(mine, now), History(mine, now))
    {
      if !InCompany(ms, company) then Err(401, "You are not part of this company")
      else if target.None? then Err(404, "Employee not found")
      else
        var mine := OfEmployee(requests, target.value);
        Ok(RequestLists(Scheduled(mine, now), History(mine, now)))
    }
  }
}
