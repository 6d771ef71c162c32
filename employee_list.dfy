// The employee table of Day_12/src/app/employee-list/employee-list.ts:
// every truthy value written to its `employee` input is pushed onto
// `employees`; the template shows a notice while the list is empty.
module EmployeeList {
  import opened Wrappers

  /** The notice shown instead of the table. */
  const EmptyNotice: string := "No employees to display."

  /** What the template renders: the notice, or a table with one row per entry. */
  datatype Rendered<T> = Notice(text: string) | Table(rows: seq<T>)

  function Render<T>(employees: seq<T>): Rendered<T>
  {
    if |employees| > 0 then Table(employees) else Notice(EmptyNotice)
  }

  /** The notice shows exactly when the list is empty; otherwise every entry is a row, in order. */
  lemma RenderShowsNoticeIffEmpty<T>(employees: seq<T>)
    ensures Render(employees) == Notice(EmptyNotice) <==> |employees| == 0
    ensures |employees| > 0 ==> Render(employees).rows == employees
  {
  }

  /** The entries a sequence of input writes leaves in the list: the present values, in order. */
  function Present<T>(inputs: seq<Option<T>>): (r: seq<T>)
    ensures |r| <= |inputs|
  {
    if inputs == [] then []
    else (if inputs[0].Some? then [inputs[0].value] else []) + Present(inputs[1..])
  }

  /** Later writes only add at the end: the list is append-only. */
  lemma {:induction false} PresentConcat<T>(inputs: seq<Option<T>>, later: seq<Option<T>>)
    ensures Present(inputs + later) == Present(inputs) + Present(later)
  {
    if inputs == [] {
      assert inputs + later == later;
    } else {
      var head := if inputs[0].Some? then [inputs[0].value] else [];
      assert (inputs + later)[0] == inputs[0];
      assert (inputs + later)[1..] == inputs[1..] + later;
      assert Present(inputs + later) == head + Present(inputs[1..] + later);
      PresentConcat(inputs[1..], later);
      assert Present(inputs) == head + Present(inputs[1..]);
    }
  }

  /** There is no de-duplication: writing the same employee twice lists it twice. */
  lemma SameEmployeeTwice<T>(e: T)
    ensures Present([Some(e), Some(e)]) == [e, e]
  {
    assert [Some(e), Some(e)][1..] == [Some(e)];
    assert [Some(e)][1..] == [];
  }

  /** EmployeeListComponent: the list the input setter pushes onto. */
  class EmployeeListComponent<T> {
    var employees: seq<T>

    constructor ()
      ensures employees == []
    {
      employees := [];
    }

    /** The `employee` setter: push a truthy value, ignore null and undefined (None). */
    method SetEmployee(employee: Option<T>)
      modifies this
      ensures employees == old(employees) + Present([employee])
      ensures employees[..|old(employees)|] == old(employees)
    {
      if employee.Some? {
        employees := employees + [employee.value];
      }
    }
  }
}
