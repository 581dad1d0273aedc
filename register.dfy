/**
 * RegisterViewModel: the registration form, its enable condition and the registration step that
 * rejects an email already in use and otherwise adds one employee with role 1.
 */
module Register {
  import opened Wrappers
  import opened Text
  import opened Models

  // The messages of the form.
  const DepartmentsLoadError: string := "Ошибка загрузки отделов"
  const DuplicateEmailError: string := "Пользователь с таким email уже существует"
  const RegistrationError: string := "Ошибка при регистрации"
  const RegistrationSuccess: string := "Регистрация прошла успешно!"

  /** The role every self-registered employee gets. */
  const NewEmployeeRoleId: int := 1

  /** FirstOrDefault(e => e.Email == email) != null: some employee has exactly this email. */
  predicate EmailTaken(table: seq<Employee>, email: string) {
    exists e :: e in table && e.email == email
  }

  /** No two employees share an email. */
  predicate UniqueEmails(table: seq<Employee>) {
    forall i, j :: 0 <= i < j < |table| ==> table[i].email != table[j].email
  }

  /** Appending an employee whose email is free keeps emails unique, and takes that email. */
  lemma AppendFreeEmail(table: seq<Employee>, e: Employee)
    requires !EmailTaken(table, e.email)
    ensures UniqueEmails(table) ==> UniqueEmails(table + [e])
    ensures EmailTaken(table + [e], e.email)
  {
    var t := table + [e];
    forall i, j | UniqueEmails(table) && 0 <= i < j < |t| ensures t[i].email != t[j].email {
      if j == |table| {
        assert t[i] in table;
      } else {
        assert t[i] == table[i] && t[j] == table[j];
      }
    }
    assert t[|table|] == e;
  }

  class RegisterViewModel {
    /** The employee rows stored in the database. */
    var employees: seq<Employee>
    /** Employees added to the context and not yet inserted: a failed save keeps them pending. */
    var pending: seq<Employee>
    /** Departments; None while not loaded (the load threw). */
    var departments: Option<seq<Department>>

    // The form; a C# null text reads as "".
    var firstName: string
    var lastName: string
    var email: string
    var password: string
    var confirmPassword: string
    var position: string
    var selectedDepartment: Option<Department>

    var errorMessage: string
    var successMessage: string

    /** An empty form; `loadOk` is false when loading the departments throws. */
    constructor (employeeTable: seq<Employee>, departmentTable: seq<Department>, loadOk: bool)
      ensures employees == employeeTable && pending == []
      ensures departments == if loadOk then Some(departmentTable) else None
      ensures errorMessage == if loadOk then "" else DepartmentsLoadError
      ensures successMessage == ""
      ensures firstName == lastName == email == password == confirmPassword == position == ""
      ensures selectedDepartment.None?
    {
      employees := employeeTable;
      pending := [];
      departments := None;
      firstName, lastName, email, password, confirmPassword, position := "", "", "", "", "", "";
      selectedDepartment := None;
      errorMessage, successMessage := "", "";
      new;
      LoadDepartments(departmentTable, loadOk);
    }

    /** LoadDepartments: the department list, or the load error message. */
    method LoadDepartments(departmentTable: seq<Department>, loadOk: bool)
      modifies this`departments, this`errorMessage
      ensures loadOk ==> departments == Some(departmentTable) && errorMessage == old(errorMessage)
      ensures !loadOk ==> departments == old(departments) && errorMessage == DepartmentsLoadError
    {
      if loadOk {
        departments := Some(departmentTable);
      } else {
        errorMessage := DepartmentsLoadError;
      }
    }

    /** CanRegister: six non-blank texts, a department, and matching passwords. */
    predicate CanRegister()
      reads this
    {
      && !IsBlank(firstName)
      && !IsBlank(lastName)
      && !IsBlank(email)
      && !IsBlank(password)
      && !IsBlank(confirmPassword)
      && !IsBlank(position)
      && selectedDepartment.Some?
      && password == confirmPassword
    }

    /** The employee OnRegister builds from the form. */
    function NewEmployee(newId: int, now: int): (e: Employee)
      requires selectedDepartment.Some?
      reads this
      ensures e.firstName == firstName && e.lastName == lastName && e.email == email
      ensures e.password == password && e.position == position
      ensures e.departmentId == selectedDepartment.value.id && e.roleId == NewEmployeeRoleId
      ensures e.createdAt == now && e.updatedAt.None? && e.id == newId
    {
      Employee(newId, firstName, lastName, email, password, position, now, None,
               selectedDepartment.value.id, NewEmployeeRoleId)
    }

    /**
     * OnRegister: both messages are cleared first; an email taken in the database is rejected;
     * otherwise one employee is added to the context and saved. `newId` is the key the database
     * assigns, `now` is DateTime.Now and `saveOk` is false when SaveChanges throws. A missing
     * department makes `.Id` throw before anything is added, which the same handler reports. A
     * failed save leaves the employee pending, and the next successful save inserts it together
     * with the new one. `done` says whether the Done event is raised.
     */
    method OnRegister(newId: int, now: int, saveOk: bool) returns (done: bool)
      modifies this`employees, this`pending, this`errorMessage, this`successMessage
      ensures EmailTaken(old(employees), email) ==>
        && employees == old(employees) && pending == old(pending) && !done
        && errorMessage == DuplicateEmailError && successMessage == ""
      ensures !EmailTaken(old(employees), email) && selectedDepartment.None? ==>
        && employees == old(employees) && pending == old(pending) && !done
        && errorMessage == RegistrationError && successMessage == ""
      ensures !EmailTaken(old(employees), email) && selectedDepartment.Some? && !saveOk ==>
        && employees == old(employees) && pending == old(pending) + [NewEmployee(newId, now)] && !done
        && errorMessage == RegistrationError && successMessage == ""
      ensures !EmailTaken(old(employees), email) && selectedDepartment.Some? && saveOk ==>
        && employees == old(employees) + old(pending) + [NewEmployee(newId, now)] && pending == [] && done
        && errorMessage == "" && successMessage == RegistrationSuccess
      ensures UniqueEmails(old(employees)) && old(pending) == [] ==> UniqueEmails(employees)
      ensures CanRegister() && !EmailTaken(old(employees), email) && saveOk ==> done
    {
      errorMessage := "";
      successMessage := "";
      done := false;
      var before := pending;
      if EmailTaken(employees, email) {
        errorMessage := DuplicateEmailError;
        return;
      }
      if selectedDepartment.None? {
        errorMessage := RegistrationError;
        return;
      }
      var e := NewEmployee(newId, now);
      pending := pending + [e];
      if !saveOk {
        errorMessage := RegistrationError;
        return;
      }
      if before == [] {
        AppendFreeEmail(employees, e);
        assert pending == [e];
      }
      employees := employees + pending;
      pending := [];
      successMessage := RegistrationSuccess;
      done := true;
    }
  }

  /** Registering the same email twice: the second attempt is rejected and adds nobody. */
  method RegisterTwice(vm: RegisterViewModel, firstId: int, secondId: int, now: int)
    requires vm.selectedDepartment.Some? && !EmailTaken(vm.employees, vm.email) && vm.pending == []
    modifies vm
    ensures |vm.employees| == |old(vm.employees)| + 1
    ensures vm.errorMessage == DuplicateEmailError && vm.successMessage == ""
  {
    var first := vm.OnRegister(firstId, now, true);
    assert vm.employees[|vm.employees| - 1].email == vm.email;
    var second := vm.OnRegister(secondId, now, true);
  }

  /**
   * Registering after a failed save, with the same email: the stored rows do not hold the pending
   * employee, so the email check passes and one successful save inserts two employees sharing it.
   */
  method RetryAfterFailedSave(vm: RegisterViewModel, firstId: int, secondId: int, now: int)
    requires vm.selectedDepartment.Some? && !EmailTaken(vm.employees, vm.email) && vm.pending == []
    modifies vm
    ensures vm.selectedDepartment == old(vm.selectedDepartment)
    ensures vm.employees == old(vm.employees) + [vm.NewEmployee(firstId, now), vm.NewEmployee(secondId, now)]
    ensures !UniqueEmails(vm.employees)
  {
    var first := vm.OnRegister(firstId, now, false);
    var second := vm.OnRegister(secondId, now, true);
    var n := |vm.employees|;
    assert vm.employees[n - 2].email == vm.employees[n - 1].email;
  }
}
