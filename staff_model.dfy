/**
 * The staff record (`staff` table): the organisation a staff member works
 * for, the user account behind the record, and the names derived from it.
 */
module StaffModel {
  import opened Common

  datatype EmploymentStatus = ACTIVE | INACTIVE | TERMINATED | ON_LEAVE | SUSPENDED
  datatype PayType = HOURLY | SALARY | CONTRACT

  /** The two name columns of the linked `users` row. */
  datatype UserName = UserName(firstName: string, lastName: string)

  /**
   * A staff row. `fteHundredths` is `fte_percentage` in hundredths of a
   * percent (`DECIMAL(5,2)`), so 10000 is 100.00.
   */
  datatype Staff = Staff(
    id: Id,
    userId: Id,
    organizationId: Id,
    employeeId: string,
    preferredName: Option<string>,
    hireDate: Day,
    employmentStatus: EmploymentStatus,
    payType: PayType,
    fteHundredths: int,
    supervisorId: Option<Id>,
    notes: Option<string>,
    terminationDate: Option<Day>)

  const DEFAULT_FTE_HUNDREDTHS: int := 10000

  /**
   * A row of `staff_assignments`: a staff member assigned to a client. The
   * client column is nullable, and only rows whose `is_active` is true count
   * as current.
   */
  datatype StaffAssignment = StaffAssignment(id: Id, staffId: Id, clientId: Option<Id>, startDate: Day,
                                             endDate: Option<Day>, isActive: bool)

  /** A row as the column defaults complete it when only the required columns are given. */
  function NewStaff(id: Id, userId: Id, organizationId: Id, employeeId: string, today: Day): (r: Staff)
    ensures r.employmentStatus == ACTIVE && r.payType == HOURLY && r.fteHundredths == DEFAULT_FTE_HUNDREDTHS
    ensures r.hireDate == today && r.preferredName.None? && r.supervisorId.None? && r.terminationDate.None?
    ensures r.id == id && r.userId == userId && r.organizationId == organizationId && r.employeeId == employeeId
  {
    Staff(id, userId, organizationId, employeeId, None, today, ACTIVE, HOURLY, DEFAULT_FTE_HUNDREDTHS, None, None, None)
  }

  /** A `users` row, with the columns the staff record reads. */
  datatype UserRecord = UserRecord(id: Id, name: UserName)

  /** The user a row with foreign key `userId` refers to, if any (`staff.user`). */
  function UserById(users: seq<UserRecord>, userId: Id): (r: Option<UserName>)
    ensures r.Some? <==> exists k :: 0 <= k < |users| && users[k].id == userId
    ensures r.Some? ==> exists k :: 0 <= k < |users| && users[k].id == userId && users[k].name == r.value
  {
    var i := FirstMatch(users, (u: UserRecord) => u.id == userId);
    if i.None? then None else Some(users[i.value].name)
  }

  /** `Staff.full_name`: the user's first and last name, or "" when no user is linked. */
  function FullName(user: Option<UserName>): (r: string)
    ensures user.None? ==> r == ""
    ensures user.Some? ==> r == user.value.firstName + " " + user.value.lastName
  {
    match user
    case None => ""
    case Some(u) => u.firstName + " " + u.lastName
  }

  /**
   * `Staff.display_name`: the preferred name with the user's last name when
   * a preferred name is set (and not empty), otherwise the full name. With a
   * preferred name but no user, reading `self.user.last_name` fails.
   */
  function DisplayName(s: Staff, user: Option<UserName>): (r: Result<string>)
    ensures !Truthy(s.preferredName) ==> r == Ok(FullName(user))
    ensures Truthy(s.preferredName) && user.Some? ==> r == Ok(s.preferredName.value + " " + user.value.lastName)
    ensures r.Err? <==> Truthy(s.preferredName) && user.None?
  {
    if Truthy(s.preferredName) then
      if user.None? then Err(INTERNAL_ERROR, "'NoneType' object has no attribute 'last_name'")
      else Ok(s.preferredName.value + " " + user.value.lastName)
    else Ok(FullName(user))
  }

  /** `employee_id` carries a database-wide unique constraint. */
  predicate EmployeeIdsUnique(rows: seq<Staff>)
  {
    forall i, j :: 0 <= i < j < |rows| ==> rows[i].employeeId != rows[j].employeeId
  }

  /** The staff row of organisation `org` with id `id`, as `filter(Staff.id == id, Staff.organization_id == org).first()`. */
  function FindStaff(rows: seq<Staff>, id: Id, org: Option<Id>): (r: Option<Staff>)
    ensures r.Some? ==> r.value in rows && r.value.id == id && Some(r.value.organizationId) == org
    ensures r.None? ==> forall k :: 0 <= k < |rows| ==> !(rows[k].id == id && Some(rows[k].organizationId) == org)
  {
    var i := FirstMatch(rows, (s: Staff) => s.id == id && Some(s.organizationId) == org);
    if i.None? then None else Some(rows[i.value])
  }

  /** Whether the staff member `id` belongs to organisation `org`. */
  predicate StaffInOrg(rows: seq<Staff>, id: Id, org: Option<Id>)
  {
    exists k :: 0 <= k < |rows| && rows[k].id == id && Some(rows[k].organizationId) == org
  }

  lemma FindStaffIffInOrg(rows: seq<Staff>, id: Id, org: Option<Id>)
    ensures FindStaff(rows, id, org).Some? <==> StaffInOrg(rows, id, org)
  {
    var r := FindStaff(rows, id, org);
    if r.Some? {
      var k :| 0 <= k < |rows| && rows[k] == r.value;
    }
  }
}
