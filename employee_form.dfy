// The enrolment form of Day_12/src/app/employee-form/employee-form.ts: the
// inputs are bound to the fields of one employee object; submitting emits
// a copy of that object and then replaces it with a blank one.
module EmployeeForm {

  /** An `Employee` object; the form's inputs write its fields in place. */
  class EmployeeRecord {
    var name: string
    var email: string
    var phone: string

    constructor (name: string, email: string, phone: string)
      ensures this.name == name && this.email == email && this.phone == phone
    {
      this.name := name;
      this.email := email;
      this.phone := phone;
    }
  }

  /** EmployeeFormComponent: the bound employee object. */
  class EmployeeFormComponent {
    var employee: EmployeeRecord

    predicate IsBlank()
      reads this, employee
    {
      employee.name == "" && employee.email == "" && employee.phone == ""
    }

    constructor ()
      ensures fresh(employee) && IsBlank()
    {
      employee := new EmployeeRecord("", "", "");
    }

    /** `addEmployee`: emit a copy (`{ ...this.employee }`), then clear the form. */
    method AddEmployee() returns (emitted: EmployeeRecord)
      modifies this
      ensures fresh(emitted) && fresh(employee) && emitted != employee
      ensures emitted.name == old(employee.name)
      ensures emitted.email == old(employee.email)
      ensures emitted.phone == old(employee.phone)
      ensures IsBlank()
    {
      emitted := new EmployeeRecord(employee.name, employee.email, employee.phone);
      ClearForm();
    }

    /** `clearForm`: bind a new blank employee object. */
    method ClearForm()
      modifies this
      ensures fresh(employee) && IsBlank()
    {
      employee := new EmployeeRecord("", "", "");
    }
  }

  /**
   * The emitted record is a copy: typing into the form afterwards, or
   * clearing it again, leaves the record as it was emitted.
   */
  method EditAfterAdd(form: EmployeeFormComponent, typed: string) returns (emitted: EmployeeRecord)
    modifies form
    ensures emitted.name == old(form.employee.name)
    ensures emitted.email == old(form.employee.email)
    ensures emitted.phone == old(form.employee.phone)
    ensures form.IsBlank()
  {
    emitted := form.AddEmployee();
    form.employee.name := typed;
    form.ClearForm();
  }

  /** Clearing twice leaves the form as clearing once does: all three fields empty. */
  method ClearTwice(form: EmployeeFormComponent)
    modifies form
    ensures form.IsBlank()
  {
    form.ClearForm();
    form.ClearForm();
  }
}
