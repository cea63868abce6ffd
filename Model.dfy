/** The records decoded from the employee directory's JSON. */
module Model {
  import opened Outcomes

  /** One employee record; every field is an optional string, as the directory sends it. */
  datatype Employee = Employee(
    id: Option<string>,            // "id"
    name: Option<string>,          // "employee_name"
    salary: Option<string>,        // "employee_salary", a decimal integer as text
    age: Option<string>,           // "employee_age"
    profileImage: Option<string>)  // "profile_image"

  /** The envelope every directory reply is wrapped in. */
  datatype EmployeeResponse = EmployeeResponse(
    status: Option<string>,
    data: Option<seq<Employee>>,
    message: Option<string>)

  /** The employee's name, null where the record has none: the `map(employee -> employee.employeeName)` step. */
  function Names(es: seq<Employee>): (r: seq<Option<string>>)
    ensures |r| == |es|
    ensures forall i :: 0 <= i < |es| ==> r[i] == es[i].name
  {
    if es == [] then [] else [es[0].name] + Names(es[1..])
  }
}
