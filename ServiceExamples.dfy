/** The concrete cases the repository's tests pin down, stated on the model. */
module ServiceExamples {
  import opened Outcomes
  import opened Model
  import opened Exceptions
  import opened JavaLang
  import opened Gson
  import opened EmployeeService

  function Staff(id: string, age: string, name: string, salary: string): Employee {
    Employee(Some(id), Some(name), Some(salary), Some(age), None)
  }

  /** The two-employee list the tests' directory mock answers with. */
  function EmployeeSubList(): EmployeeResponse {
    EmployeeResponse(
      Some("success"),
      Some([Staff("1", "61", "Tiger Nixon", "320800"), Staff("2", "63", "Garrett Winters", "170750")]),
      Some("Here is he list of employees"))
  }

  /** The list comes back whole and in order, with status 200. */
  lemma GetAllEmployeesSuccess()
    ensures GetEmployeeList(Delivered(Some(EmployeeSubList()))) == Ok(Reply(200, EmployeeSubList().data))
    ensures |GetEmployeeList(Delivered(Some(EmployeeSubList()))).value.body.value| == 2
  {
  }

  /** Error statuses 400, 401, 403, 404 and 500 end in the mapped exception and nothing else. */
  lemma GetEmployeeListErrorStatuses()
    ensures GetEmployeeList(ErrorStatus(400)).Err? && GetEmployeeList(ErrorStatus(400)).error.BadRequest?
    ensures GetEmployeeList(ErrorStatus(401)).Err? && GetEmployeeList(ErrorStatus(401)).error.AuthError?
    ensures GetEmployeeList(ErrorStatus(403)).Err? && GetEmployeeList(ErrorStatus(403)).error.AuthError?
    ensures GetEmployeeList(ErrorStatus(404)).Err? && GetEmployeeList(ErrorStatus(404)).error.NotFound?
    ensures GetEmployeeList(ErrorStatus(500)).Err? && GetEmployeeList(ErrorStatus(500)).error.ServerError?
  {
  }

  lemma ParseTigerSalary()
    ensures ParseInt(Some("320800")) == Some(320800)
  {
    assert NatDigits(3) == "3";
    assert NatDigits(32) == "32";
    assert NatDigits(320) == "320";
    assert NatDigits(3208) == "3208";
    assert NatDigits(32080) == "32080";
    assert NatDigits(320800) == "320800";
    ParseIntOfIntToString(320800);
  }

  lemma ParseGarrettSalary()
    ensures ParseInt(Some("170750")) == Some(170750)
  {
    assert NatDigits(1) == "1";
    assert NatDigits(17) == "17";
    assert NatDigits(170) == "170";
    assert NatDigits(1707) == "1707";
    assert NatDigits(17075) == "17075";
    assert NatDigits(170750) == "170750";
    ParseIntOfIntToString(170750);
  }

  /** The highest of 320800 and 170750 is 320800. */
  lemma HighestSalaryOfEmployeesListSuccess()
    ensures GetHighestSalaryOfEmployees(Delivered(Some(EmployeeSubList()))) == Ok(Reply(200, 320800))
  {
    ParseTigerSalary();
    ParseGarrettSalary();
    var es := EmployeeSubList().data.value;
    var tail := [es[1]];
    assert ParsedSalaries([]) == Ok([]);
    assert tail[1..] == [];
    assert tail[0].salary == Some("170750");
    assert ParseInt(tail[0].salary) == Some(170750);
    assert ParsedSalaries(tail[1..]) == Ok([]);
    assert [170750] + [] == [170750];
    assert ParsedSalaries(tail) == Ok([170750]);
    assert es[1..] == tail;
    assert [320800] + [170750] == [320800, 170750];
    assert ParsedSalaries(es) == Ok([320800, 170750]);
  }

  lemma SortTie(x: SalaryOrder.Earner, y: SalaryOrder.Earner)
    requires x.salary == y.salary
    ensures SalaryOrder.Sort([x, y]) == [x, y]
  {
    assert [x, y][1..] == [y];
    assert [y][1..] == [];
    assert SalaryOrder.Sort([y]) == [y];
    assert SalaryOrder.Insert(x, [y]) == [x] + [y];
  }

  lemma TieEarners(a: Employee, b: Employee, k: int)
    requires ParseInt(a.salary) == Some(k) && ParseInt(b.salary) == Some(k)
    ensures AllSalariesParse([a, b])
    ensures Earners([a, b]) == [SalaryOrder.Earner(k, a), SalaryOrder.Earner(k, b)]
  {
    assert [a, b][1..] == [b] && [a, b][1..][1..] == [];
  }

  /** Two employees on the same salary keep their input order, whatever else their records hold. */
  lemma TopTenTie(a: Employee, b: Employee, k: int)
    requires ParseInt(a.salary) == Some(k) && ParseInt(b.salary) == Some(k)
    ensures TopTenNames(Some([a, b])) == Ok(Some([a.name, b.name]))
  {
    var ea, eb := SalaryOrder.Earner(k, a), SalaryOrder.Earner(k, b);
    TieEarners(a, b, k);
    SortTie(ea, eb);
    assert TopEarners([a, b]) == [ea, eb];
    assert EmployeesOf([ea, eb]) == [a, b];
    assert Names([a, b]) == [a.name, b.name];
  }

  lemma TopTenKeepsTiesInOrder()
    ensures TopTenNames(Some([Staff("1", "30", "A", "100"), Staff("2", "40", "B", "100")])) == Ok(Some([Some("A"), Some("B")]))
  {
    ParseIntOfIntToString(100);
    assert IntToString(100) == "100";
    TopTenTie(Staff("1", "30", "A", "100"), Staff("2", "40", "B", "100"), 100);
  }

  /** Two string entries print as their quoted keys and values, `:` and `,` between them, in order. */
  lemma PrintTwoStrings(k1: string, v1: string, k2: string, v2: string)
    ensures ToJson(JObject([Member(k1, JString(v1)), Member(k2, JString(v2))]))
      == "{" + ((Quote(k1) + ":" + Quote(v1)) + "," + (Quote(k2) + ":" + Quote(v2))) + "}"
  {
    var ms := [Member(k1, JString(v1)), Member(k2, JString(v2))];
    assert ms[1..] == [Member(k2, JString(v2))];
    assert ToJson(JString(v1)) == Quote(v1);
    assert ToJson(JString(v2)) == Quote(v2);
    var a := Quote(k1) + ":" + Quote(v1);
    var b := Quote(k2) + ":" + Quote(v2);
    assert MembersJson(ms[1..]) == b;
    assert MembersJson(ms) == a + "," + b;
  }

  lemma QuotePlain(s: string)
    requires forall i :: 0 <= i < |s| ==> PlainChar(s[i])
    ensures Quote(s) == "\"" + s + "\""
  {
    EscapePlain(s);
  }

  const DELETED: string := "Successfully! Record has been deleted"
  const STATUS: string := "status"
  const SUCCESS: string := "success"
  const MESSAGE: string := "message"

  const DELETE_REPLY := "{\"status\":\"success\",\"data\":\"2\",\"message\":\"Successfully! Record has been deleted\"}"

  /** What Gson parses DELETE_REPLY to. */
  function ParseDeleteReply(text: string): Option<JsonValue> {
    Some(JObject([
      Member(STATUS, JString(SUCCESS)),
      Member("data", JString("2")),
      Member(MESSAGE, JString(DELETED))]))
  }

  lemma StripDeleteReply()
    ensures StripData(DELETE_REPLY, ParseDeleteReply)
      == Ok([Member(STATUS, JString(SUCCESS)), Member(MESSAGE, JString(DELETED))])
    ensures Formatted(DELETE_REPLY, ParseDeleteReply)
      == Ok(ToJson(JObject([Member(STATUS, JString(SUCCESS)), Member(MESSAGE, JString(DELETED))])))
  {
    var status, data, message :=
      Member(STATUS, JString(SUCCESS)),
      Member("data", JString("2")),
      Member(MESSAGE, JString(DELETED));
    var ms := [status, data, message];
    assert Without([], "data") == [];
    assert [message][1..] == [];
    assert Without([message], "data") == [message];
    assert [data, message][1..] == [message];
    assert Without([data, message], "data") == [message];
    assert ms[1..] == [data, message];
    assert Without(ms, "data") == [status, message];
    assert |DELETE_REPLY| > 0;
  }

  lemma DeleteReplyIsPlain()
    ensures forall i :: 0 <= i < |STATUS| ==> PlainChar(STATUS[i])
    ensures forall i :: 0 <= i < |SUCCESS| ==> PlainChar(SUCCESS[i])
    ensures forall i :: 0 <= i < |MESSAGE| ==> PlainChar(MESSAGE[i])
    ensures forall i :: 0 <= i < |DELETED| ==> PlainChar(DELETED[i])
  {
  }

  /** Two entries of plain text print with their keys and values between quotes, unescaped. */
  lemma PrintTwoPlainStrings(k1: string, v1: string, k2: string, v2: string)
    requires forall i :: 0 <= i < |k1| ==> PlainChar(k1[i])
    requires forall i :: 0 <= i < |v1| ==> PlainChar(v1[i])
    requires forall i :: 0 <= i < |k2| ==> PlainChar(k2[i])
    requires forall i :: 0 <= i < |v2| ==> PlainChar(v2[i])
    ensures ToJson(JObject([Member(k1, JString(v1)), Member(k2, JString(v2))]))
      == "{" + ((("\"" + k1 + "\"") + ":" + ("\"" + v1 + "\"")) + "," + (("\"" + k2 + "\"") + ":" + ("\"" + v2 + "\""))) + "}"
  {
    PrintTwoStrings(k1, v1, k2, v2);
    QuotePlain(k1);
    QuotePlain(v1);
    QuotePlain(k2);
    QuotePlain(v2);
  }

  /** The delete reply of the test loses its "data" entry and keeps "status" and "message" in order. */
  lemma DeleteEmployeeByIdSuccess()
    ensures Formatted(DELETE_REPLY, ParseDeleteReply)
      == Ok("{" + ((("\"" + STATUS + "\"") + ":" + ("\"" + SUCCESS + "\"")) + "," + (("\"" + MESSAGE + "\"") + ":" + ("\"" + DELETED + "\""))) + "}")
  {
    StripDeleteReply();
    DeleteReplyIsPlain();
    PrintTwoPlainStrings(STATUS, SUCCESS, MESSAGE, DELETED);
  }

  /** The test's request body: strings pass through, the number 5000 is sent as "5000". */
  lemma CreateEmployeeRequest()
    ensures CreateRequest(map["name" := Text("Bilbo Baggins"), "age" := Text("45"), "salary" := Integer(5000)])
      == Employee(None, Some("Bilbo Baggins"), Some("5000"), Some("45"), None)
  {
    assert IntToString(5000) == "5000";
  }

  /** A successful create answers with the directory's status string. */
  lemma CreateEmployeeSuccess()
    ensures CreateEmployee(
      map["name" := Text("Bilbo Baggins"), "age" := Text("45"), "salary" := Integer(5000)],
      _ => Delivered(Some(EmployeeResponse(Some("success"), Some([Employee(Some("1262"), None, None, None, None)]), Some("Successfully! Record has been added.")))))
      == Ok(Reply(200, Some("success")))
  {
  }
}
