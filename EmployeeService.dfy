/**
 * EmployeeService: the translation layer between the employee directory's
 * replies and the local REST contract. Each public method is a function (or,
 * for delete, a method) from what came back from the directory to the local
 * reply or the exception the method ends in.
 */
module EmployeeService {
  import opened Outcomes
  import opened Model
  import opened Exceptions
  import opened JavaLang
  import opened SalaryOrder
  import opened Gson

  const ERR_MSG_COULD_NOT_FETCH_THE_DATA := "Could not fetch the data "
  const ERR_MSG_NO_SALARY := "salary details are not available"
  const HTTP_OK := 200
  const TOP_N := 10

  /**
   * What one directory call produced: an HTTP error status, or a decoded body,
   * which is `None` when block() returned null (an empty reply).
   */
  datatype Upstream<B> = ErrorStatus(code: int) | Delivered(body: Option<B>)

  /** A local ResponseEntity: HTTP status and body. */
  datatype Reply<T> = Reply(status: int, body: T)

  // ---------------------------------------------------------------- status codes

  /** The exception getEmployeeList's status handler raises for an upstream error status. */
  function Classify(code: int): (e: ServiceError)
    ensures e.BadRequest? <==> code == 400
    ensures e.AuthError? <==> code == 401 || code == 403
    ensures e.NotFound? <==> code == 404
    ensures e.ServerError? <==> code == 500
    ensures e.SomethingWentWrong? <==> code !in {400, 401, 403, 404, 500}
    ensures e.BadRequest? ==> e.message == "bad request : check payload"
    ensures e.AuthError? ==> e.message == "Authentication Error "
    ensures e.NotFound? ==> e.message == "You sure you're looking for the right thing? "
    ensures e.ServerError? ==> e.message == "Server is messing up a bit"
    ensures e.SomethingWentWrong? ==> e.message == "something went wrong"
  {
    match code
    case 400 => BadRequest("bad request : check payload")
    case 401 => AuthError("Authentication Error ")
    case 403 => AuthError("Authentication Error ")
    case 404 => NotFound("You sure you're looking for the right thing? ")
    case 500 => ServerError("Server is messing up a bit")
    case _ => SomethingWentWrong("something went wrong")
  }

  // ---------------------------------------------------------------- pass-through reads

  /** getEmployeeList: the classified error, the null-body guard, else the envelope's data list as it came. */
  function GetEmployeeList(u: Upstream<EmployeeResponse>): (r: Result<Reply<Option<seq<Employee>>>, ServiceError>)
    ensures u.ErrorStatus? ==> r == Err(Classify(u.code))
    ensures u == Delivered(None) ==> r == Err(InformationNotFound(ERR_MSG_COULD_NOT_FETCH_THE_DATA))
    ensures r.Ok? <==> u.Delivered? && u.body.Some?
    ensures r.Ok? ==> r.value.status == HTTP_OK && r.value.body == u.body.value.data
  {
    match u
    case ErrorStatus(c) => Err(Classify(c))
    case Delivered(None) => Err(InformationNotFound(ERR_MSG_COULD_NOT_FETCH_THE_DATA))
    case Delivered(Some(resp)) => Ok(Reply(HTTP_OK, resp.data))
  }

  /** getEmployeeById: no status handler of its own, the null-body guard, else the data list as it came. */
  function GetEmployeeById(u: Upstream<EmployeeResponse>): (r: Result<Reply<Option<seq<Employee>>>, ServiceError>)
    ensures u.ErrorStatus? ==> r == Err(ClientResponse(u.code))
    ensures u == Delivered(None) ==> r == Err(InformationNotFound(ERR_MSG_COULD_NOT_FETCH_THE_DATA))
    ensures r.Ok? <==> u.Delivered? && u.body.Some?
    ensures r.Ok? ==> r.value.status == HTTP_OK && r.value.body == u.body.value.data
  {
    match u
    case ErrorStatus(c) => Err(ClientResponse(c))
    case Delivered(None) => Err(InformationNotFound(ERR_MSG_COULD_NOT_FETCH_THE_DATA))
    case Delivered(Some(resp)) => Ok(Reply(HTTP_OK, resp.data))
  }

  // ---------------------------------------------------------------- salaries

  predicate SalaryParses(e: Employee) {
    ParseInt(e.salary).Some?
  }

  predicate AllSalariesParse(es: seq<Employee>) {
    forall i :: 0 <= i < |es| ==> SalaryParses(es[i])
  }

  /** `es[i]` is the first employee, in list order, whose salary Integer.parseInt rejects. */
  predicate FirstUnparsable(es: seq<Employee>, i: int) {
    0 <= i < |es| && !SalaryParses(es[i]) && forall j :: 0 <= j < i ==> SalaryParses(es[j])
  }

  /**
   * Parsing every salary in list order: the parsed values, or the
   * NumberFormatException for the first salary that does not parse.
   */
  function ParsedSalaries(es: seq<Employee>): (r: Result<seq<int>, ServiceError>)
    ensures r.Ok? <==> AllSalariesParse(es)
    ensures r.Ok? ==> |r.value| == |es| && forall i :: 0 <= i < |es| ==> ParseInt(es[i].salary) == Some(r.value[i])
    ensures r.Err? ==> exists i :: FirstUnparsable(es, i) && r.error == NumberFormat(es[i].salary)
  {
    if es == [] then Ok([])
    else
      match ParseInt(es[0].salary)
      case None =>
        assert FirstUnparsable(es, 0);
        Err(NumberFormat(es[0].salary))
      case Some(k) =>
        assert forall i :: 0 < i < |es| ==> es[i] == es[1..][i - 1];
        match ParsedSalaries(es[1..])
        case Err(e) =>
          FirstUnparsableShift(es, e);
          Err(e)
        case Ok(ks) =>
          assert forall i :: 0 < i < |es| ==> ([k] + ks)[i] == ks[i - 1];
          Ok([k] + ks)
  }

  lemma FirstUnparsableShift(es: seq<Employee>, e: ServiceError)
    requires |es| > 0 && SalaryParses(es[0])
    requires exists i :: FirstUnparsable(es[1..], i) && e == NumberFormat(es[1..][i].salary)
    ensures exists i :: FirstUnparsable(es, i) && e == NumberFormat(es[i].salary)
  {
    var i :| FirstUnparsable(es[1..], i) && e == NumberFormat(es[1..][i].salary);
    assert FirstUnparsable(es, i + 1);
  }

  /** The largest element: Stream.max(Integer::compare) on a non-empty stream. */
  function MaxOf(xs: seq<int>): (m: int)
    requires |xs| > 0
    ensures m in xs
    ensures forall i :: 0 <= i < |xs| ==> xs[i] <= m
  {
    if |xs| == 1 then xs[0]
    else
      var t := MaxOf(xs[1..]);
      assert forall i :: 1 <= i < |xs| ==> xs[i] == xs[1..][i - 1];
      if xs[0] >= t then xs[0] else t
  }

  /**
   * The highest-salary projection over the envelope's data list: a null list
   * dereferenced, each salary parsed in order, the maximum, or
   * InformationNotFound when the list is empty.
   */
  function HighestSalary(data: Option<seq<Employee>>): (r: Result<int, ServiceError>)
    ensures data.None? ==> r == Err(NullData)
    ensures data == Some([]) ==> r == Err(InformationNotFound(ERR_MSG_NO_SALARY))
    ensures r.Ok? <==> data.Some? && |data.value| > 0 && AllSalariesParse(data.value)
    ensures r.Ok? ==> exists i :: 0 <= i < |data.value| && ParseInt(data.value[i].salary) == Some(r.value)
    ensures r.Ok? ==> forall i :: 0 <= i < |data.value| ==> ParseInt(data.value[i].salary).value <= r.value
    ensures data.Some? && !AllSalariesParse(data.value) ==>
      exists i :: FirstUnparsable(data.value, i) && r == Err(NumberFormat(data.value[i].salary))
  {
    match data
    case None => Err(NullData)
    case Some(es) =>
      match ParsedSalaries(es)
      case Err(e) => Err(e)
      case Ok(ks) =>
        if |ks| == 0 then Err(InformationNotFound(ERR_MSG_NO_SALARY))
        else
          MaxOfParsed(es, ks);
          Ok(MaxOf(ks))
  }

  /** The maximum of the parsed salaries is some employee's salary and at least everyone's. */
  lemma MaxOfParsed(es: seq<Employee>, ks: seq<int>)
    requires |ks| == |es| > 0
    requires forall i :: 0 <= i < |es| ==> ParseInt(es[i].salary) == Some(ks[i])
    ensures exists i :: 0 <= i < |es| && ParseInt(es[i].salary) == Some(MaxOf(ks))
    ensures forall i :: 0 <= i < |es| ==> ParseInt(es[i].salary).value <= MaxOf(ks)
  {
    var i :| 0 <= i < |ks| && ks[i] == MaxOf(ks);
    assert ParseInt(es[i].salary) == Some(MaxOf(ks));
  }

  /** getHighestSalaryOfEmployees: the null-body guard, then the highest-salary projection. */
  function GetHighestSalaryOfEmployees(u: Upstream<EmployeeResponse>): (r: Result<Reply<int>, ServiceError>)
    ensures u.ErrorStatus? ==> r == Err(ClientResponse(u.code))
    ensures u == Delivered(None) ==> r == Err(InformationNotFound(ERR_MSG_COULD_NOT_FETCH_THE_DATA))
    ensures u.Delivered? && u.body.Some? ==>
      match HighestSalary(u.body.value.data)
      case Ok(m) => r == Ok(Reply(HTTP_OK, m))
      case Err(e) => r == Err(e)
  {
    match u
    case ErrorStatus(c) => Err(ClientResponse(c))
    case Delivered(None) => Err(InformationNotFound(ERR_MSG_COULD_NOT_FETCH_THE_DATA))
    case Delivered(Some(resp)) =>
      match HighestSalary(resp.data)
      case Err(e) => Err(e)
      case Ok(m) => Ok(Reply(HTTP_OK, m))
  }

  // ---------------------------------------------------------------- top ten

  /** Each employee paired with its parsed salary, in list order. */
  function Earners(es: seq<Employee>): (r: seq<Earner>)
    requires AllSalariesParse(es)
    ensures |r| == |es|
    ensures forall i :: 0 <= i < |es| ==> r[i] == Earner(ParseInt(es[i].salary).value, es[i])
  {
    if es == [] then []
    else
      assert forall i :: 0 < i < |es| ==> es[i] == es[1..][i - 1];
      [Earner(ParseInt(es[0].salary).value, es[0])] + Earners(es[1..])
  }

  function EmployeesOf(s: seq<Earner>): (r: seq<Employee>)
    ensures |r| == |s|
    ensures forall i :: 0 <= i < |s| ==> r[i] == s[i].employee
  {
    if s == [] then [] else [s[0].employee] + EmployeesOf(s[1..])
  }

  function Min(a: int, b: int): int {
    if a <= b then a else b
  }

  /** The ten best paid employees: the first ten of the stable descending salary sort (`limit(10)`). */
  function TopEarners(es: seq<Employee>): (r: seq<Earner>)
    requires AllSalariesParse(es)
    ensures |r| == Min(TOP_N, |es|)
  {
    Sort(Earners(es))[..Min(TOP_N, |es|)]
  }

  /** The employees the top ten leave out, in sorted order. */
  function LeftOut(es: seq<Employee>): (r: seq<Earner>)
    requires AllSalariesParse(es)
    ensures |r| == |es| - Min(TOP_N, |es|)
  {
    Sort(Earners(es))[Min(TOP_N, |es|)..]
  }

  /**
   * The top-ten projection over the envelope's data list: a null list gives a
   * null body; a list of fewer than two employees is returned without parsing
   * any salary (the sort makes no comparison); otherwise every salary is
   * parsed, and the names of the ten best paid come back in sorted order.
   */
  function TopTenNames(data: Option<seq<Employee>>): (r: Result<Option<seq<Option<string>>>, ServiceError>)
    ensures data.None? ==> r == Ok(None)
    ensures data.Some? && |data.value| < 2 ==> r == Ok(Some(Names(data.value)))
    ensures data.Some? && AllSalariesParse(data.value) ==>
      r == Ok(Some(Names(EmployeesOf(TopEarners(data.value)))))
    ensures data.Some? && |data.value| >= 2 && !AllSalariesParse(data.value) ==>
      exists i :: FirstUnparsable(data.value, i) && r == Err(NumberFormat(data.value[i].salary))
  {
    match data
    case None => Ok(None)
    case Some(es) =>
      if |es| < 2 then
        assert AllSalariesParse(es) ==> EmployeesOf(TopEarners(es)) == es by {
          if AllSalariesParse(es) && |es| == 1 {
            assert Sort(Earners(es)) == Earners(es);
          }
        }
        Ok(Some(Names(es)))
      else
        match ParsedSalaries(es)
        case Err(e) => Err(e)
        case Ok(_) => Ok(Some(Names(EmployeesOf(TopEarners(es)))))
  }

  /** getTopTenHighestEarningEmployeeNames: the null-body guard, then the top-ten projection. */
  function GetTopTenHighestEarningEmployeeNames(u: Upstream<EmployeeResponse>): (r: Result<Reply<Option<seq<Option<string>>>>, ServiceError>)
    ensures u.ErrorStatus? ==> r == Err(ClientResponse(u.code))
    ensures u == Delivered(None) ==> r == Err(InformationNotFound(ERR_MSG_COULD_NOT_FETCH_THE_DATA))
    ensures u.Delivered? && u.body.Some? ==>
      match TopTenNames(u.body.value.data)
      case Ok(names) => r == Ok(Reply(HTTP_OK, names))
      case Err(e) => r == Err(e)
  {
    match u
    case ErrorStatus(c) => Err(ClientResponse(c))
    case Delivered(None) => Err(InformationNotFound(ERR_MSG_COULD_NOT_FETCH_THE_DATA))
    case Delivered(Some(resp)) =>
      match TopTenNames(resp.data)
      case Err(e) => Err(e)
      case Ok(names) => Ok(Reply(HTTP_OK, names))
  }

  /**
   * What the top ten are: salaries never increase along them; for every salary,
   * the selected employees earning it are the first ones earning it in the
   * input, in input order; and nobody left out earns more than anybody selected.
   */
  lemma TopEarnersAreTheTopTen(es: seq<Employee>)
    requires AllSalariesParse(es)
    ensures NonIncreasing(TopEarners(es))
    ensures forall v :: WithSalary(TopEarners(es), v) <= WithSalary(Earners(es), v)
    ensures multiset(TopEarners(es)) + multiset(LeftOut(es)) == multiset(Earners(es))
    ensures forall e, left :: e in TopEarners(es) && left in LeftOut(es) ==> left.salary <= e.salary
  {
    var k := Min(TOP_N, |es|);
    assert TopEarners(es) == Sort(Earners(es))[..k];
    assert LeftOut(es) == Sort(Earners(es))[k..];
    PrefixKeepsGroupOrder(Earners(es), k);
    PrefixIsTop(Earners(es), k);
  }

  /** The selection holds min(10, n) names, whether or not the sort had to compare anything. */
  lemma TopTenLength(es: seq<Employee>)
    requires AllSalariesParse(es)
    ensures TopTenNames(Some(es)).Ok?
    ensures TopTenNames(Some(es)).value.Some?
    ensures |TopTenNames(Some(es)).value.value| == Min(TOP_N, |es|)
  {
  }

  // ---------------------------------------------------------------- create

  /**
   * The record createEmployee sends: name, age and salary each as
   * String.valueOf of Map.get on the request (null for a missing key),
   * every other field null.
   */
  function CreateRequest(input: map<string, InputValue>): (e: Employee)
    ensures e.id.None? && e.profileImage.None?
    ensures e.name.Some? && e.age.Some? && e.salary.Some?
    // a missing key and a JSON null both print as "null"
    ensures ("name" !in input || input["name"].Null?) ==> e.name == Some("null")
    ensures ("age" !in input || input["age"].Null?) ==> e.age == Some("null")
    ensures ("salary" !in input || input["salary"].Null?) ==> e.salary == Some("null")
    // a string passes through unchanged
    ensures "name" in input && input["name"].Text? ==> e.name == Some(input["name"].text)
    ensures "age" in input && input["age"].Text? ==> e.age == Some(input["age"].text)
    ensures "salary" in input && input["salary"].Text? ==> e.salary == Some(input["salary"].text)
    // a number is written in decimal, as Integer.toString writes it
    ensures "name" in input && input["name"].Integer? ==> e.name == Some(IntToString(input["name"].number))
    ensures "age" in input && input["age"].Integer? ==> e.age == Some(IntToString(input["age"].number))
    ensures "salary" in input && input["salary"].Integer? ==> e.salary == Some(IntToString(input["salary"].number))
    ensures "salary" in input && input["salary"].Integer? && InIntRange(input["salary"].number) ==>
      ParseInt(e.salary) == Some(input["salary"].number)
    // a boolean as "true" or "false"
    ensures "name" in input && input["name"].Bool? ==> e.name == Some(if input["name"].flag then "true" else "false")
    ensures "age" in input && input["age"].Bool? ==> e.age == Some(if input["age"].flag then "true" else "false")
    ensures "salary" in input && input["salary"].Bool? ==> e.salary == Some(if input["salary"].flag then "true" else "false")
  {
    Employee(
      id := None,
      name := Some(ValueOf(if "name" in input then input["name"] else Null)),
      salary := Some(ValueOf(if "salary" in input then input["salary"] else Null)),
      age := Some(ValueOf(if "age" in input then input["age"] else Null)),
      profileImage := None)
  }

  /**
   * createEmployee: sends CreateRequest(input) to the directory (`send` stands
   * for the POST), then returns the envelope's status string verbatim.
   */
  function CreateEmployee(input: map<string, InputValue>, send: Employee -> Upstream<EmployeeResponse>): (r: Result<Reply<Option<string>>, ServiceError>)
    ensures send(CreateRequest(input)).ErrorStatus? ==> r == Err(ClientResponse(send(CreateRequest(input)).code))
    ensures send(CreateRequest(input)) == Delivered(None) ==> r == Err(InformationNotFound(ERR_MSG_COULD_NOT_FETCH_THE_DATA))
    ensures r.Ok? <==> send(CreateRequest(input)).Delivered? && send(CreateRequest(input)).body.Some?
    ensures r.Ok? ==> r.value == Reply(HTTP_OK, send(CreateRequest(input)).body.value.status)
  {
    match send(CreateRequest(input))
    case ErrorStatus(c) => Err(ClientResponse(c))
    case Delivered(None) => Err(InformationNotFound(ERR_MSG_COULD_NOT_FETCH_THE_DATA))
    case Delivered(Some(resp)) => Ok(Reply(HTTP_OK, resp.status))
  }

  // ---------------------------------------------------------------- delete

  /**
   * The reshaping of a delete reply: the empty text becomes the empty object;
   * any other text is parsed (`parse` stands for Gson's JsonParser, `None` where
   * it throws), must be an object, and loses its "data" entry.
   */
  function StripData(text: string, parse: string -> Option<JsonValue>): (r: Result<seq<Member>, ServiceError>)
    ensures text == "" ==> r == Ok([])
    ensures text != "" && parse(text).None? ==> r == Err(JsonSyntax)
    ensures text != "" && parse(text).Some? && !parse(text).value.JObject? ==> r == Err(NotAJsonObject)
    ensures r.Ok? ==> !HasKey(r.value, "data")
    ensures r.Ok? && text != "" ==>
      && parse(text).Some? && parse(text).value.JObject?
      && forall m :: m in r.value <==> m in parse(text).value.members && m.key != "data"
  {
    if |text| == 0 then Ok([])
    else
      match parse(text)
      case None => Err(JsonSyntax)
      case Some(JObject(ms)) => Ok(Without(ms, "data"))
      case Some(_) => Err(NotAJsonObject)
  }

  /** The text the reshaped object prints as: `{}` for an empty reply, an object literal otherwise, or the parse's exception. */
  function Formatted(text: string, parse: string -> Option<JsonValue>): (r: Result<string, ServiceError>)
    ensures r.Ok? <==> StripData(text, parse).Ok?
    ensures r.Err? ==> r.error == StripData(text, parse).error
    ensures text == "" ==> r == Ok("{}")
    ensures r.Ok? ==> |r.value| >= 2 && r.value[0] == '{' && r.value[|r.value| - 1] == '}'
  {
    match StripData(text, parse)
    case Ok(ms) =>
      assert ms == [] ==> ToJson(JObject(ms)) == "{}" by { EmptyObjectToJson(); }
      Ok(ToJson(JObject(ms)))
    case Err(e) => Err(e)
  }

  /** formatResponse: the same steps deleteEmployeeById takes once its reply text is non-null. */
  method FormatResponse(text: string, parse: string -> Option<JsonValue>) returns (r: Result<string, ServiceError>)
    ensures r == Formatted(text, parse)
  {
    var jsonObject := new JsonObject();
    if |text| > 0 {
      var parsed := parse(text);
      if parsed.None? {
        return Err(JsonSyntax);
      }
      if !parsed.value.JObject? {
        return Err(NotAJsonObject);
      }
      jsonObject := new JsonObject.FromMembers(parsed.value.members);
      var removed := jsonObject.Remove("data");
    }
    r := Ok(ToJson(JObject(jsonObject.members)));
  }

  /** deleteEmployeeById: the null-body guard, then the reply text reshaped. */
  method DeleteEmployeeById(u: Upstream<string>, parse: string -> Option<JsonValue>) returns (r: Result<Reply<string>, ServiceError>)
    ensures u.ErrorStatus? ==> r == Err(ClientResponse(u.code))
    ensures u == Delivered(None) ==> r == Err(InformationNotFound(ERR_MSG_COULD_NOT_FETCH_THE_DATA))
    ensures u.Delivered? && u.body.Some? ==>
      match Formatted(u.body.value, parse)
      case Ok(s) => r == Ok(Reply(HTTP_OK, s))
      case Err(e) => r == Err(e)
  {
    match u
    case ErrorStatus(c) =>
      r := Err(ClientResponse(c));
    case Delivered(None) =>
      r := Err(InformationNotFound(ERR_MSG_COULD_NOT_FETCH_THE_DATA));
    case Delivered(Some(text)) =>
      var formatted := FormatResponse(text, parse);
      match formatted
      case Ok(s) => r := Ok(Reply(HTTP_OK, s));
      case Err(e) => r := Err(e);
  }

  /** Reshaping keeps every other key's value, and reshaping the result again changes nothing. */
  lemma StripDataKeepsTheRest(text: string, parse: string -> Option<JsonValue>, key: string)
    requires key != "data"
    requires StripData(text, parse).Ok? && text != ""
    ensures Lookup(StripData(text, parse).value, key) == Lookup(parse(text).value.members, key)
    ensures Without(StripData(text, parse).value, "data") == StripData(text, parse).value
  {
    WithoutKeepsOtherKeys(parse(text).value.members, "data", key);
    WithoutIdempotent(parse(text).value.members, "data");
  }

  /** On a reply whose keys are unique, reshaping removes exactly the "data" entry and keeps the order of the rest. */
  lemma StripDataRemovesOneEntry(text: string, parse: string -> Option<JsonValue>, pre: seq<Member>, v: JsonValue, post: seq<Member>)
    requires text != ""
    requires parse(text) == Some(JObject(pre + [Member("data", v)] + post))
    requires UniqueKeys(pre + [Member("data", v)] + post)
    ensures StripData(text, parse) == Ok(pre + post)
  {
    WithoutUnique(pre, v, post, "data");
  }

  /** A reply without a "data" entry is printed back whole, its entries in their order. */
  lemma StripDataKeepsObjectWithoutData(text: string, parse: string -> Option<JsonValue>, ms: seq<Member>)
    requires text != ""
    requires parse(text) == Some(JObject(ms))
    requires !HasKey(ms, "data")
    ensures StripData(text, parse) == Ok(ms)
  {
    WithoutAbsent(ms, "data");
  }
}
