/** Staff records in the admin panel (admin_employees.py): adding and
    editing an employee (phone cleaning, password hashing, workshop
    assignment), the workshops the edit form shows, and the guards on
    deleting an employee. */
module Employees {
  import opened Wrappers
  import opened Text
  import Records
  import Cash

  /** get_password_hash(password): the hash is not modelled, only which
      password it was computed from. */
  datatype Secret = HashOf(password: string)

  datatype Employee = Employee(
    fullName: string,
    phone: Option<string>,
    roleId: nat,
    workshops: seq<nat>,          // assigned_workshop_ids
    warehouseId: Option<nat>,     // the legacy assigned_warehouse_id
    passwordHash: Option<Secret>,
    cashBalance: real)

  datatype EmployeeError =
    | BadPhone     // 400: the phone's digits are not 10 to 15 long
    | PhoneTaken   // 400: the unique phone column rejects the commit

  datatype DeleteRefusal = HasDebt | Assigned | Integrity

  /** `re.sub(r'\D', '', phone) if phone else None`. */
  function CleanPhone(phone: Option<string>): (r: Option<string>)
    ensures r.None? <==> phone.None? || phone.value == ""
    ensures r.Some? ==> AllDigits(r.value) && r.value == DigitsOf(phone.value)
  {
    if phone.None? || phone.value == "" then None else Some(DigitsOf(phone.value))
  }

  /** A cleaned phone passes when it is empty or has 10 to 15 digits. */
  predicate PhoneOk(cleaned: Option<string>)
  {
    cleaned.None? || cleaned.value == "" || 10 <= |cleaned.value| <= 15
  }

  /** The phone rule on what the form sent: no digits at all, or between
      10 and 15 of them, whatever else the text holds. */
  lemma PhoneRule(phone: Option<string>)
    ensures PhoneOk(CleanPhone(phone)) <==>
      phone.None? || |DigitsOf(phone.value)| == 0 || 10 <= |DigitsOf(phone.value)| <= 15
  {
  }

  /** The hash a submitted password produces: only a password with a
      non-blank character is hashed. */
  function NewHash(password: Option<string>): (r: Option<Secret>)
    ensures r.Some? <==> password.Some? && Strip(password.value) != ""
    ensures r.Some? ==> r.value == HashOf(password.value)
  {
    if password.Some? && Strip(password.value) != "" then Some(HashOf(password.value)) else None
  }

  /** The legacy single workshop: the first one selected. */
  function LegacyWarehouse(ws: seq<nat>): (r: Option<nat>)
    ensures r.None? <==> ws == []
    ensures r.Some? ==> r.value == ws[0]
  {
    if ws == [] then None else Some(ws[0])
  }

  /** get_edit_employee_form: the workshops shown as checked; an employee
      with no workshop list but a legacy warehouse shows that one. */
  function WorkshopsShown(e: Employee): seq<nat>
  {
    if e.workshops == [] && e.warehouseId.Some? && e.warehouseId.value != 0 then [e.warehouseId.value]
    else e.workshops
  }

  /** Another employee (not `except`) already has this phone. */
  predicate PhoneInUse(emps: map<nat, Employee>, phone: Option<string>, except: Option<nat>)
  {
    phone.Some? && exists k | k in emps :: Some(k) != except && emps[k].phone == phone
  }

  /** The unique constraint on phone_number. */
  ghost predicate UniquePhones(emps: map<nat, Employee>)
  {
    forall j, k | j in emps && k in emps && j != k :: emps[j].phone.None? || emps[j].phone != emps[k].phone
  }

  /** Storing an employee whose phone nobody else has keeps the phones
      unique. */
  lemma StoreKeepsPhonesUnique(emps: map<nat, Employee>, id: nat, e: Employee)
    requires UniquePhones(emps) && !PhoneInUse(emps, e.phone, Some(id))
    ensures UniquePhones(emps[id := e])
  {
    var emps2 := emps[id := e];
    forall j, k | j in emps2 && k in emps2 && j != k
      ensures emps2[j].phone.None? || emps2[j].phone != emps2[k].phone
    {
      if j == id && e.phone.Some? {
        assert emps2[k] == emps[k];
      } else if k == id && emps2[j].phone.Some? {
        assert emps2[j] == emps[j];
      }
    }
  }

  /** add_employee. */
  function AddEmployeeSpec(emps: map<nat, Employee>, nextId: nat, fullName: string, phone: Option<string>,
                           roleId: nat, password: Option<string>, ws: seq<nat>)
    : Result<(map<nat, Employee>, nat), EmployeeError>
  {
    var cleaned := CleanPhone(phone);
    if !PhoneOk(cleaned) then Err(BadPhone)
    else if PhoneInUse(emps, cleaned, None) then Err(PhoneTaken)
    else Ok((emps[nextId := Employee(fullName, cleaned, roleId, ws, LegacyWarehouse(ws), NewHash(password), 0.0)],
             nextId + 1))
  }

  /** The employee edit_employee makes of e. */
  function Edited(e: Employee, fullName: string, cleaned: Option<string>, roleId: nat, password: Option<string>,
                  ws: seq<nat>): Employee
  {
    e.(fullName := fullName, phone := cleaned, roleId := roleId, workshops := ws, warehouseId := LegacyWarehouse(ws),
       passwordHash := if NewHash(password).Some? then NewHash(password) else e.passwordHash)
  }

  /** edit_employee; an unknown id changes nothing. */
  function EditEmployeeSpec(emps: map<nat, Employee>, id: nat, fullName: string, phone: Option<string>,
                            roleId: nat, password: Option<string>, ws: seq<nat>)
    : Result<map<nat, Employee>, EmployeeError>
  {
    if id !in emps then Ok(emps)
    else
      var cleaned := CleanPhone(phone);
      if !PhoneOk(cleaned) then Err(BadPhone)
      else if PhoneInUse(emps, cleaned, Some(id)) then Err(PhoneTaken)
      else Ok(emps[id := Edited(emps[id], fullName, cleaned, roleId, password, ws)])
  }

  /** A new employee is stored under a fresh id with a phone of digits
      only (10 to 15 of them, or none), the first workshop as the legacy
      one, a hash exactly when a non-blank password was given, and a zero
      balance; the phones stay unique. */
  lemma AddEmployeeEffect(emps: map<nat, Employee>, nextId: nat, fullName: string, phone: Option<string>,
                          roleId: nat, password: Option<string>, ws: seq<nat>)
    requires UniquePhones(emps) && forall k | k in emps :: k < nextId
    ensures var r := AddEmployeeSpec(emps, nextId, fullName, phone, roleId, password, ws);
      && (r.Ok? <==> PhoneOk(CleanPhone(phone)) && !PhoneInUse(emps, CleanPhone(phone), None))
      && (r.Ok? ==>
            var (emps2, next2) := r.value;
            var e := emps2[nextId];
            && nextId !in emps && emps2.Keys == emps.Keys + {nextId} && next2 > nextId
            && (forall k | k in emps :: emps2[k] == emps[k])
            && UniquePhones(emps2)
            && (e.phone.Some? ==> AllDigits(e.phone.value) && (e.phone.value == "" || 10 <= |e.phone.value| <= 15))
            && e.workshops == ws && e.warehouseId == LegacyWarehouse(ws)
            && (e.passwordHash.Some? <==> password.Some? && Strip(password.value) != "")
            && e.cashBalance == 0.0)
  {
    var cleaned := CleanPhone(phone);
    if PhoneOk(cleaned) && !PhoneInUse(emps, cleaned, None) {
      var e := Employee(fullName, cleaned, roleId, ws, LegacyWarehouse(ws), NewHash(password), 0.0);
      StoreKeepsPhonesUnique(emps, nextId, e);
    }
  }

  /** Editing rewrites the named employee's fields, keeps the password hash
      when the password is blank, keeps the phones unique and leaves every
      other employee alone. */
  lemma EditEmployeeEffect(emps: map<nat, Employee>, id: nat, fullName: string, phone: Option<string>,
                           roleId: nat, password: Option<string>, ws: seq<nat>)
    requires UniquePhones(emps) && id in emps
    ensures var r := EditEmployeeSpec(emps, id, fullName, phone, roleId, password, ws);
      && (r.Ok? <==> PhoneOk(CleanPhone(phone)) && !PhoneInUse(emps, CleanPhone(phone), Some(id)))
      && (r.Ok? ==>
            var e := r.value[id];
            && r.value.Keys == emps.Keys
            && (forall k | k in emps && k != id :: r.value[k] == emps[k])
            && UniquePhones(r.value)
            && e.fullName == fullName && e.roleId == roleId && e.phone == CleanPhone(phone)
            && e.workshops == ws && e.warehouseId == LegacyWarehouse(ws)
            && e.cashBalance == emps[id].cashBalance
            && (password.None? || Strip(password.value) == "" ==> e.passwordHash == emps[id].passwordHash)
            && (password.Some? && Strip(password.value) != "" ==> e.passwordHash == Some(HashOf(password.value))))
  {
    var cleaned := CleanPhone(phone);
    if PhoneOk(cleaned) && !PhoneInUse(emps, cleaned, Some(id)) {
      StoreKeepsPhonesUnique(emps, id, Edited(emps[id], fullName, cleaned, roleId, password, ws));
    }
  }

  /** What a save stores is what the edit form shows back as checked. */
  lemma SavedWorkshopsShownBack(emps: map<nat, Employee>, id: nat, fullName: string, phone: Option<string>,
                                roleId: nat, password: Option<string>, ws: seq<nat>)
    requires id in emps
    requires EditEmployeeSpec(emps, id, fullName, phone, roleId, password, ws).Ok?
    ensures WorkshopsShown(EditEmployeeSpec(emps, id, fullName, phone, roleId, password, ws).value[id]) == ws
  {
  }

  /** The employee is courier or waiter of an order whose status is neither
      completed nor cancelled. */
  predicate ActiveAssignment(orders: seq<Records.Order>, statuses: seq<Records.Status>, id: nat)
  {
    exists k | 0 <= k < |orders| ::
      && !(exists s | s in statuses :: s.id == orders[k].statusId && s.IsClosed())
      && (orders[k].courierId == Some(id) || orders[k].acceptedByWaiterId == Some(id))
  }

  predicate HasOpenShift(shifts: seq<Cash.Shift>, id: nat)
  {
    exists k | 0 <= k < |shifts| :: shifts[k].employeeId == id && !shifts[k].isClosed
  }

  /** delete_employee. referenced says whether other rows still point at
      the employee, which makes the database refuse the delete. */
  function DeleteEmployeeSpec(emps: map<nat, Employee>, id: nat, orders: seq<Records.Order>,
                              statuses: seq<Records.Status>, shifts: seq<Cash.Shift>, referenced: bool)
    : (map<nat, Employee>, Option<DeleteRefusal>)
  {
    if id !in emps then (emps, None)
    else if emps[id].cashBalance > 0.0 then (emps, Some(HasDebt))
    else if ActiveAssignment(orders, statuses, id) || HasOpenShift(shifts, id) then (emps, Some(Assigned))
    else if referenced then (emps, Some(Integrity))
    else (emps - {id}, None)
  }

  /** An employee is removed only when they hold no cash, serve no open
      order and have no open shift; a refusal changes nothing, and nobody
      else is ever removed. */
  lemma DeleteEmployeeGuards(emps: map<nat, Employee>, id: nat, orders: seq<Records.Order>,
                             statuses: seq<Records.Status>, shifts: seq<Cash.Shift>, referenced: bool)
    requires id in emps
    ensures var (r, refusal) := DeleteEmployeeSpec(emps, id, orders, statuses, shifts, referenced);
      && (id !in r <==>
            (&& emps[id].cashBalance <= 0.0 && !ActiveAssignment(orders, statuses, id)
             && !HasOpenShift(shifts, id) && !referenced))
      && (refusal.Some? <==> id in r)
      && (refusal.Some? ==> r == emps)
      && (forall k | k in emps && k != id :: k in r && r[k] == emps[k])
      && (emps[id].cashBalance > 0.0 ==> refusal == Some(HasDebt))
  {
  }

  /** The employees table as the admin panel changes it. */
  class Roster {
    var employees: map<nat, Employee>
    var nextId: nat

    ghost predicate Valid()
      reads this
    {
      UniquePhones(employees) && forall k | k in employees :: k < nextId
    }

    constructor ()
      ensures Valid() && employees == map[] && nextId == 1
    {
      employees, nextId := map[], 1;
    }

    method AddEmployee(fullName: string, phone: Option<string>, roleId: nat, password: Option<string>, ws: seq<nat>)
      returns (r: Result<nat, EmployeeError>)
      requires Valid()
      modifies this
      ensures Valid()
      ensures match AddEmployeeSpec(old(employees), old(nextId), fullName, phone, roleId, password, ws)
        case Ok(res) => r == Ok(old(nextId)) && (employees, nextId) == res
        case Err(e) => r == Err(e) && employees == old(employees) && nextId == old(nextId)
    {
      var cleaned := CleanPhone(phone);
      if !PhoneOk(cleaned) {
        return Err(BadPhone);
      }
      if PhoneInUse(employees, cleaned, None) {
        return Err(PhoneTaken);
      }
      var hash: Option<Secret> := None;
      if password.Some? && Strip(password.value) != "" {
        hash := Some(HashOf(password.value));
      }
      var warehouse: Option<nat> := if ws == [] then None else Some(ws[0]);
      assert hash == NewHash(password) && warehouse == LegacyWarehouse(ws);
      ghost var spec := AddEmployeeSpec(employees, nextId, fullName, phone, roleId, password, ws);
      assert spec == Ok((employees[nextId := Employee(fullName, cleaned, roleId, ws, warehouse, hash, 0.0)], nextId + 1));
      var id := Store(Employee(fullName, cleaned, roleId, ws, warehouse, hash, 0.0));
      r := Ok(id);
    }

    /** A new row under the next id, for an employee whose phone nobody
        has. */
    method Store(e: Employee) returns (id: nat)
      requires Valid() && !PhoneInUse(employees, e.phone, None)
      modifies this
      ensures Valid()
      ensures id == old(nextId) && employees == old(employees)[id := e] && nextId == id + 1
    {
      assert !PhoneInUse(employees, e.phone, Some(nextId));
      StoreKeepsPhonesUnique(employees, nextId, e);
      employees := employees[nextId := e];
      id := nextId;
      nextId := nextId + 1;
    }

    method EditEmployee(id: nat, fullName: string, phone: Option<string>, roleId: nat, password: Option<string>,
                        ws: seq<nat>)
      returns (err: Option<EmployeeError>)
      requires Valid()
      modifies this
      ensures Valid() && nextId == old(nextId)
      ensures match EditEmployeeSpec(old(employees), id, fullName, phone, roleId, password, ws)
        case Ok(emps) => err.None? && employees == emps
        case Err(e) => err == Some(e) && employees == old(employees)
    {
      if id !in employees {
        return None;
      }
      EditEmployeeEffect(employees, id, fullName, phone, roleId, password, ws);
      var cleaned := CleanPhone(phone);
      if !PhoneOk(cleaned) {
        return Some(BadPhone);
      }
      if PhoneInUse(employees, cleaned, Some(id)) {
        return Some(PhoneTaken);
      }
      var e := employees[id];
      e := e.(fullName := fullName, phone := cleaned, roleId := roleId);
      e := e.(workshops := ws, warehouseId := if ws == [] then None else Some(ws[0]));
      if password.Some? && Strip(password.value) != "" {
        e := e.(passwordHash := Some(HashOf(password.value)));
      }
      employees := employees[id := e];
      err := None;
    }

    method DeleteEmployee(id: nat, orders: seq<Records.Order>, statuses: seq<Records.Status>, shifts: seq<Cash.Shift>,
                          referenced: bool)
      returns (refusal: Option<DeleteRefusal>)
      requires Valid()
      modifies this
      ensures Valid() && nextId == old(nextId)
      ensures (employees, refusal) == DeleteEmployeeSpec(old(employees), id, orders, statuses, shifts, referenced)
    {
      var res := DeleteEmployeeSpec(employees, id, orders, statuses, shifts, referenced);
      employees, refusal := res.0, res.1;
    }
  }
}
