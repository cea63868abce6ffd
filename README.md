# EmployeeService, modelled in Dafny

This project models `EmployeeService`, the translation layer of a small Spring
backend-for-frontend. The service forwards each call to an upstream "employee
directory" over HTTP, then turns what it gets back into the local reply or into
an exception. The model covers:

- the status classifier of `getEmployeeList` (400, 401/403, 404, 500, anything else);
- the null-body guard every method shares ("Could not fetch the data ");
- the highest-salary read view, with `Integer.parseInt` on every salary;
- the top-ten read view: a stable sort by salary, highest first, cut to ten;
- the request `createEmployee` builds with `String.valueOf`;
- the delete path, which parses the reply with Gson, removes `"data"` and prints the rest.

Modules:

| file | module | what it holds |
|---|---|---|
| `Outcomes.dfy` | `Outcomes` | `Option` and `Result` |
| `Model.dfy` | `Model` | the `Employee` record and the `EmployeeResponse` envelope |
| `Exceptions.dfy` | `Exceptions` | one constructor per exception a method can end in |
| `JavaLang.dfy` | `JavaLang` | `Integer.parseInt`, `Integer.toString` and `String.valueOf` |
| `SalaryOrder.dfy` | `SalaryOrder` | the stable descending salary sort and its characterisation |
| `Gson.dfy` | `Gson` | the JSON value tree, the mutable `JsonObject` with `remove`, and `toString` |
| `EmployeeService.dfy` | `EmployeeService` | the six public operations and `formatResponse` |
| `ServiceExamples.dfy` | `ServiceExamples` | the repository's test scenarios, stated as lemmas |

The HTTP exchange is a value. `Upstream<B>` is either `ErrorStatus(code)` or
`Delivered(body)`, where `body` is `None` when `block()` returned null. Every
operation is a function from that value to a `Result` of a local `Reply` or a
`ServiceError`.

Most of the service only computes, so it is modelled with functions. The delete
path (`deleteEmployeeById`, and `formatResponse` with the same steps) updates
a Gson `JsonObject` in place, so it is a `method`. It works on a `JsonObject`
class whose `members` field `Remove` reassigns.

Points where the code behaves differently from what a reader might expect of such a proxy:

- Only `getEmployeeList` installs a status handler. The other methods let the
  HTTP client raise its own exception for an error status (`ClientResponse(code)`);
  they do not classify it.
- A missing `data` list is not treated as an empty list:
  - `getEmployeeList` and `getEmployeeById` return it as null;
  - `getHighestSalaryOfEmployees` dereferences it (`NullData`);
  - `getTopTenHighestEarningEmployeeNames` returns a null body.
  `isNotEmpty` on a non-null envelope is always true, so it never takes the
  empty-list branch.
- The top ten do not always parse every salary. A list of fewer than two
  employees is never compared by the sort, so it comes back unchanged even
  with a malformed salary. From two employees on, every salary is parsed, in
  list order. The first one that fails decides the exception.
- `Integer.parseInt` accepts a sign, so negative salaries parse. The model does
  not assume salaries are non-negative.

## Model

| member | source | states |
|---|---|---|
| `Model.Names` | src/main/java/com/example/rqchallenge/inbound/controller/EmployeeService.java:161 | one name per employee, in order, null where the record has none |
| `EmployeeService.Classify` | src/main/java/com/example/rqchallenge/inbound/controller/EmployeeService.java:43-50 | each status maps to its exception kind, in both directions: 400 is BadRequest, 401 and 403 are AuthError, 404 is NotFound, 500 is ServerError, and every other code is the generic exception; each kind carries its exact message |
| `EmployeeService.GetEmployeeList` | src/main/java/com/example/rqchallenge/inbound/controller/EmployeeService.java:38-63 | an error status ends in the classified exception; a null body ends in InformationNotFound with the fetch message; success happens exactly when a body arrived, with status 200 and the envelope's data list unchanged (null included) |
| `EmployeeService.GetEmployeeById` | src/main/java/com/example/rqchallenge/inbound/controller/EmployeeService.java:75-89 | the same null guard, no status classification, and the data list passed through unchanged with 200 |
| `EmployeeService.ParsedSalaries` | src/main/java/com/example/rqchallenge/inbound/controller/EmployeeService.java:103-104 | succeeds exactly when every salary parses, giving the parsed values index by index; otherwise the error is the NumberFormatException of the first salary, in list order, that does not parse |
| `EmployeeService.MaxOf` | src/main/java/com/example/rqchallenge/inbound/controller/EmployeeService.java:105 | the result is an element of the list and no element exceeds it |
| `EmployeeService.MaxOfParsed` | src/main/java/com/example/rqchallenge/inbound/controller/EmployeeService.java:104-105 | the maximum of the parsed salaries is the salary of some employee and at least every employee's salary |
| `EmployeeService.HighestSalary` | src/main/java/com/example/rqchallenge/inbound/controller/EmployeeService.java:103-105 | a null list throws NullPointerException; an empty list ends in InformationNotFound("salary details are not available"); success happens exactly when the list is non-empty and every salary parses, and the result is some employee's salary and at least every other; otherwise the first unparsable salary's NumberFormatException |
| `EmployeeService.GetHighestSalaryOfEmployees` | src/main/java/com/example/rqchallenge/inbound/controller/EmployeeService.java:91-108 | the client's error and the null guard come first; then the highest salary with 200, or its exception |
| `EmployeeService.Earners` | src/main/java/com/example/rqchallenge/inbound/controller/EmployeeService.java:159 | each employee paired with its parsed salary, in list order |
| `EmployeeService.TopEarners` | src/main/java/com/example/rqchallenge/inbound/controller/EmployeeService.java:159-160 | `limit(10)` on the sorted list: the selection holds min(10, n) employees |
| `EmployeeService.LeftOut` | src/main/java/com/example/rqchallenge/inbound/controller/EmployeeService.java:159-160 | the employees the cut leaves out number n - min(10, n) |
| `EmployeeService.TopTenNames` | src/main/java/com/example/rqchallenge/inbound/controller/EmployeeService.java:154-163 | a null list gives a null body; fewer than two employees come back as their names in input order, with no salary parsed; when every salary parses, the names are those of the top ten in sorted order; with two or more employees and a bad salary, the first bad salary's NumberFormatException |
| `EmployeeService.GetTopTenHighestEarningEmployeeNames` | src/main/java/com/example/rqchallenge/inbound/controller/EmployeeService.java:141-165 | the client's error and the null guard come first; then the top-ten names with 200, or their exception |
| `EmployeeService.TopEarnersAreTheTopTen` | src/main/java/com/example/rqchallenge/inbound/controller/EmployeeService.java:158-160 | the selected salaries never increase; for each salary, the selected employees earning it are the first ones earning it in the input, in input order; selected and left-out employees together are exactly the input; nobody left out earns more than anybody selected |
| `EmployeeService.TopTenLength` | src/main/java/com/example/rqchallenge/inbound/controller/EmployeeService.java:154-162 | with every salary well formed the reply is a list of exactly min(10, n) names |
| `EmployeeService.CreateRequest` | src/main/java/com/example/rqchallenge/inbound/controller/EmployeeService.java:169-173 | id and profile image stay null; name, age and salary are always set, each the same way: a missing key or a JSON null becomes the text "null", a string passes through unchanged, a number is written as `Integer.toString` writes it, a boolean as "true" or "false"; an integer salary in the 32-bit range reads back through `Integer.parseInt` as the same number |
| `EmployeeService.CreateEmployee` | src/main/java/com/example/rqchallenge/inbound/controller/EmployeeService.java:167-187 | the directory's answer to the built request decides the outcome; the client's error and the null guard come first; success happens exactly when a body arrived, and the reply is its status string with 200 |
| `EmployeeService.StripData` | src/main/java/com/example/rqchallenge/inbound/controller/EmployeeService.java:124-128 | empty text gives the empty object; text Gson rejects, or that is not an object, ends in the corresponding exception; the result has no "data" key, and holds exactly the parsed entries whose key is not "data" |
| `EmployeeService.Formatted` | src/main/java/com/example/rqchallenge/inbound/controller/EmployeeService.java:124-129 | the reshaped reply text, defined as `ToJson` of the object holding StripData's entries (the printer's own contracts are listed under `Gson`); its contract states: `{}` for an empty reply, otherwise an object literal (starting with `{`, ending with `}`), and it fails exactly when the reshaping fails, with the same exception |
| `EmployeeService.FormatResponse` | src/main/java/com/example/rqchallenge/inbound/controller/EmployeeService.java:132-139 | the in-place steps (new object, parse, remove "data", print) give the printed form of the stripped entries, or the exception the parse ends in |
| `EmployeeService.DeleteEmployeeById` | src/main/java/com/example/rqchallenge/inbound/controller/EmployeeService.java:110-130 | the client's error and the null guard come first; otherwise 200 with the reply text reshaped, or the exception the reshaping ends in |
| `EmployeeService.StripDataKeepsTheRest` | src/main/java/com/example/rqchallenge/inbound/controller/EmployeeService.java:126-127 | every key other than "data" keeps its value, and reshaping the result again changes nothing |
| `EmployeeService.StripDataRemovesOneEntry` | src/main/java/com/example/rqchallenge/inbound/controller/EmployeeService.java:126-127 | in an object with unique keys, exactly the one "data" entry goes and the other entries keep their order |
| `EmployeeService.StripDataKeepsObjectWithoutData` | src/main/java/com/example/rqchallenge/inbound/controller/EmployeeService.java:126-127 | an object without a "data" entry comes back whole, its entries in their order |
| `JavaLang.ParseInt` | src/main/java/com/example/rqchallenge/inbound/controller/EmployeeService.java:104 | a result exists exactly when the text is non-null, is an optional sign followed by at least one decimal digit and nothing else, and denotes a value in the 32-bit range; the result's magnitude is the decimal value of those digits and its sign is the text's |
| `JavaLang.NatDigits` | src/main/java/com/example/rqchallenge/inbound/controller/EmployeeService.java:172 | the digits of a natural number: at least one decimal digit, and no leading zero except for 0 itself |
| `JavaLang.IntToString` | src/main/java/com/example/rqchallenge/inbound/controller/EmployeeService.java:172 | '-' exactly for negative numbers (never '+'), then at least one decimal digit with no leading zero except for "0", and those digits denote the number's magnitude |
| `JavaLang.ParseIntOfIntToString` | src/main/java/com/example/rqchallenge/inbound/controller/EmployeeService.java:172 | `Integer.parseInt` reads back exactly the number `toString` wrote, and rejects it exactly when it lies outside the 32-bit range |
| `JavaLang.ValueOf` | src/main/java/com/example/rqchallenge/inbound/controller/EmployeeService.java:170-172 | null prints as "null", a string as itself, a boolean as "true" or "false", and an integer as `Integer.toString` writes it, which `Integer.parseInt` reads back to the same number exactly when it lies in the 32-bit range |
| `SalaryOrder.WithSalary` | src/main/java/com/example/rqchallenge/inbound/controller/EmployeeService.java:159 | the group of one salary is no longer than the list, and all of it earns that salary |
| `SalaryOrder.WithSalaryMember` | src/main/java/com/example/rqchallenge/inbound/controller/EmployeeService.java:159 | every member of a salary group comes from the list it was taken from |
| `SalaryOrder.Insert` | src/main/java/com/example/rqchallenge/inbound/controller/EmployeeService.java:159 | inserting adds exactly one element and keeps all the others |
| `SalaryOrder.InsertKeepsOrder` | src/main/java/com/example/rqchallenge/inbound/controller/EmployeeService.java:159 | inserting into a list sorted highest first keeps it sorted |
| `SalaryOrder.Sort` | src/main/java/com/example/rqchallenge/inbound/controller/EmployeeService.java:159 | the result is a permutation of the input, and its salaries never increase |
| `SalaryOrder.WithSalaryInsert` | src/main/java/com/example/rqchallenge/inbound/controller/EmployeeService.java:159 | an inserted employee goes before the others on its salary and changes no other salary's group |
| `SalaryOrder.SortIsStable` | src/main/java/com/example/rqchallenge/inbound/controller/EmployeeService.java:159 | for every salary, the sorted list holds the employees earning it in input order |
| `SalaryOrder.SortIsStableSort` | src/main/java/com/example/rqchallenge/inbound/controller/EmployeeService.java:159 | the sort meets the definition of a stable descending sort |
| `SalaryOrder.StableSortIsUnique` | src/main/java/com/example/rqchallenge/inbound/controller/EmployeeService.java:159 | two lists sorted highest first with the same salary groups are equal |
| `SalaryOrder.StablySortedIsSort` | src/main/java/com/example/rqchallenge/inbound/controller/EmployeeService.java:159 | any stable descending sort of the input, `Stream.sorted` included, gives exactly the modelled order |
| `SalaryOrder.PrefixKeepsGroupOrder` | src/main/java/com/example/rqchallenge/inbound/controller/EmployeeService.java:159-160 | a prefix of the sorted list holds, per salary, a leading part of that salary's input group |
| `SalaryOrder.SplitNonIncreasing` | src/main/java/com/example/rqchallenge/inbound/controller/EmployeeService.java:159-160 | cutting a list sorted highest first leaves nothing after the cut above anything before it |
| `SalaryOrder.PrefixIsTop` | src/main/java/com/example/rqchallenge/inbound/controller/EmployeeService.java:159-160 | a cut of the sorted list splits the input in two, and nobody after the cut earns more than anybody before it |
| `Gson.Lookup` | src/main/java/com/example/rqchallenge/inbound/controller/EmployeeService.java:127 | a value is found exactly when the key occurs, and it is that key's entry |
| `Gson.Without` | src/main/java/com/example/rqchallenge/inbound/controller/EmployeeService.java:127 | the key no longer occurs, and an entry remains exactly when it was there and has another key |
| `Gson.WithoutConcat` | src/main/java/com/example/rqchallenge/inbound/controller/EmployeeService.java:127 | removal works piecewise over concatenated entry lists |
| `Gson.WithoutAbsent` | src/main/java/com/example/rqchallenge/inbound/controller/EmployeeService.java:127 | removing an absent key changes nothing |
| `Gson.WithoutIdempotent` | src/main/java/com/example/rqchallenge/inbound/controller/EmployeeService.java:127 | removing twice equals removing once |
| `Gson.WithoutUnique` | src/main/java/com/example/rqchallenge/inbound/controller/EmployeeService.java:127 | with unique keys, removal takes out exactly the one entry and keeps the rest in order |
| `Gson.WithoutKeepsOtherKeys` | src/main/java/com/example/rqchallenge/inbound/controller/EmployeeService.java:127 | removal leaves every other key's lookup unchanged |
| `Gson.JsonObject.constructor` | src/main/java/com/example/rqchallenge/inbound/controller/EmployeeService.java:124 | `new JsonObject()` holds no entries |
| `Gson.JsonObject.FromMembers` | src/main/java/com/example/rqchallenge/inbound/controller/EmployeeService.java:126 | the parsed object holds the parsed entries |
| `Gson.JsonObject.Remove` | src/main/java/com/example/rqchallenge/inbound/controller/EmployeeService.java:127 | returns the old value under the key (null if none), and the new entries are the old ones without that key |
| `Gson.EscapeChar` | src/main/java/com/example/rqchallenge/inbound/controller/EmployeeService.java:129 | a plain character is written as it is; any other (quote, backslash, control character, U+2028, U+2029) becomes a backslash escape of 2 to 6 characters; no quote in the output is left without a backslash before it |
| `Gson.Escape` | src/main/java/com/example/rqchallenge/inbound/controller/EmployeeService.java:129 | the escaped text is at least as long as the original, and none of its quotes is left bare |
| `Gson.Quote` | src/main/java/com/example/rqchallenge/inbound/controller/EmployeeService.java:129 | a string literal opens and closes with a quote and is at least two characters longer than the text |
| `Gson.ToJson` | src/main/java/com/example/rqchallenge/inbound/controller/EmployeeService.java:129 | `JsonElement.toString()`: null, true and false as their words, a string as its literal, an array within `[` `]` and an object within `{` `}` |
| `Gson.ItemsJson` | src/main/java/com/example/rqchallenge/inbound/controller/EmployeeService.java:129 | the elements of an empty array print as nothing |
| `Gson.MembersJson` | src/main/java/com/example/rqchallenge/inbound/controller/EmployeeService.java:129 | the entries print as nothing exactly when there are none, and otherwise start with the first key as a string literal |
| `Gson.EscapePlain` | src/main/java/com/example/rqchallenge/inbound/controller/EmployeeService.java:129 | text without quotes, backslashes, control characters below U+0020, or the separators U+2028 and U+2029 prints unescaped |
| `Gson.EmptyObjectToJson` | src/main/java/com/example/rqchallenge/inbound/controller/EmployeeService.java:129 | the empty object prints as `{}`, which is the reply to an empty delete body |
| `ServiceExamples.GetAllEmployeesSuccess` | src/test/java/com/example/rqchallenge/RqChallengeApplicationTests.java:63-76 | the two-employee list comes back whole with 200 |
| `ServiceExamples.GetEmployeeListErrorStatuses` | src/test/java/com/example/rqchallenge/RqChallengeApplicationTests.java:78-121 | 400, 401, 403, 404 and 500 end in BadRequest, AuthError, AuthError, NotFound and ServerError |
| `ServiceExamples.HighestSalaryOfEmployeesListSuccess` | src/test/java/com/example/rqchallenge/RqChallengeApplicationTests.java:137-151 | the highest of 320800 and 170750 is 320800, with 200 |
| `ServiceExamples.TieEarners` | src/main/java/com/example/rqchallenge/inbound/controller/EmployeeService.java:159 | two employees on the same parsed salary pair with it in list order |
| `ServiceExamples.TopTenTie` | src/main/java/com/example/rqchallenge/inbound/controller/EmployeeService.java:159-161 | two employees on the same salary keep their input order, whatever else their records hold |
| `ServiceExamples.TopTenKeepsTiesInOrder` | src/main/java/com/example/rqchallenge/inbound/controller/EmployeeService.java:159-161 | a concrete tie at salary 100 comes back as A then B |
| `ServiceExamples.PrintTwoStrings` | src/main/java/com/example/rqchallenge/inbound/controller/EmployeeService.java:129 | two string entries print as quoted key, colon, quoted value, joined by a comma, in order |
| `ServiceExamples.PrintTwoPlainStrings` | src/main/java/com/example/rqchallenge/inbound/controller/EmployeeService.java:129 | the same, with plain text quoted as it is |
| `ServiceExamples.StripDeleteReply` | src/test/java/com/example/rqchallenge/RqChallengeApplicationTests.java:153-166 | the test's delete reply keeps its "status" and "message" entries, in that order |
| `ServiceExamples.DeleteEmployeeByIdSuccess` | src/test/java/com/example/rqchallenge/RqChallengeApplicationTests.java:153-166 | the test's delete reply prints as `{"status":"success","message":"Successfully! Record has been deleted"}` |
| `ServiceExamples.CreateEmployeeRequest` | src/test/java/com/example/rqchallenge/RqChallengeApplicationTests.java:189-195 | the test's request map becomes name "Bilbo Baggins", age "45" and salary "5000" |
| `ServiceExamples.CreateEmployeeSuccess` | src/test/java/com/example/rqchallenge/RqChallengeApplicationTests.java:169-183 | a successful create answers "success" with 200 |

## Left out

- The HTTP exchange itself: `WebClient`, URIs, the path variable `id` (it only appears in a URI), timeouts and transport errors. The outcome of a call is an input, `Upstream<B>`.
- Which raw status codes the HTTP client counts as errors, and the text of its own exception; the model keeps only the code (`ClientResponse(code)`).
- `EmployeeService.GetEmployeeList`: sends every error status to the switch. In the source the status predicate first resolves the raw code to an `HttpStatus` value, so a code outside that enumeration (520, say) may not reach the switch; the model does not capture that path.
- Jackson decoding of replies: unknown fields, a bare object read as a one-element list, and a failed decode. The model starts from the decoded envelope.
- A null element inside the data list; the model's lists hold records, not null references.
- `handleExceptions`: it builds error values and discards them, and nothing calls it.
- The search-by-name route, the controller, the configuration and the exception classes. `NotFoundException.java` and `ServerException.java` are not part of this model; their exception kinds appear as `ServiceError` constructors.
- `JavaLang.ParseInt`: accepts ASCII digits only; the non-ASCII decimal digits `Character.digit` also accepts are not modelled.
- `JavaLang.ValueOf`: covers strings, integers, booleans and null; other request values (doubles, nested maps and lists) are not modelled.
- `EmployeeService.CreateEmployee`: assumes the built record reaches the directory. The source hands `bodyValue` a `BodyInserter` that wraps the record, not the record itself, so what the encoder actually writes (possibly a failure to encode before any reply) is not modelled.
- Gson's parser. It is the parameter `parse`, and `None` stands for every text it rejects. Number literals keep their text.
- Exception messages of NumberFormatException and of Gson's exceptions; only the kind (and for parseInt the input) is kept.
- Logging, and the declared generic types of the `ResponseEntity` replies (erased at run time).
- `deleteEmployeeById` writes the steps of `formatResponse` out inline, and `formatResponse` itself is never called. In the model, `DeleteEmployeeById` calls `FormatResponse`, which performs those same steps.
