/**
 * The employee-context tool server: name lookup with a context summary for
 * the assistant, and the directory maintenance endpoints (add, patch, append
 * a legal-history entry, list).
 */
module EmployeeContext {
  import opened Text
  import opened Employees

  // ---------------------------------------------------------------------------
  // /lookup-employee
  // ---------------------------------------------------------------------------

  /** The `employee` object of a successful lookup. */
  datatype EmployeeView = EmployeeView(
    name: string, firstName: string, team: string, department: string, title: string, location: string,
    manager: Option<string>, hasDirectReports: bool, directReportsCount: nat, currentProjects: seq<string>,
    specialties: seq<string>, recentLegalInteractions: nat, communicationStyle: string, notes: string)

  datatype AiInstructions = AiInstructions(greeting: string, context: string, relevantHistory: string,
                                           suggestedApproach: string)

  /** The three answers: 400 without a name, `found: false` with a message, or the context. */
  datatype LookupResult =
    | MissingName
    | NotFound(message: string)
    | Found(employee: EmployeeView, aiInstructions: AiInstructions)

  const FirstTimeText: string := "This " + "is their first time contacting legal services."

  /** `h.type` as `join` renders it: an absent type is the empty string. */
  function TypeText(h: LegalEntry): string {
    if h.entryType.Some? then h.entryType.value else ""
  }

  function HistoryTypes(h: seq<LegalEntry>): (r: seq<string>)
    ensures |r| == |h|
  {
    if |h| == 0 then [] else [TypeText(h[0])] + HistoryTypes(h[1..])
  }

  function RelevantHistory(e: Employee): string {
    if |e.legalHistory| > 0 then "They previously worked with legal on: " + Join(HistoryTypes(e.legalHistory), ", ")
    else FirstTimeText
  }

  function ViewOf(e: Employee): EmployeeView {
    EmployeeView(e.name, e.firstName, e.team, e.department, e.title, e.location, e.manager,
                 |e.directReports| > 0, |e.directReports|, e.projects, e.specialties, |e.legalHistory|,
                 e.preferences.communicationStyle, e.notes)
  }

  function InstructionsFor(e: Employee): AiInstructions {
    AiInstructions("Great! I see you're " + e.name + " from the " + e.team + " team.",
                   "This person is " + e.title + " in " + e.department + ". " + e.notes,
                   RelevantHistory(e),
                   e.preferences.communicationStyle)
  }

  function NotFoundMessage(name: string): string {
    "I don't have any information for \"" + name + "\" in our employee directory. "
      + "Could you verify the spelling or provide an email address?"
  }

  /** `/lookup-employee` with `req.body.name`. */
  function Lookup(emps: seq<Employee>, name: Option<string>): LookupResult {
    if !Truthy(name) then MissingName
    else
      var found := FindEmployeeByName(emps, name.value);
      if found.None? then NotFound(NotFoundMessage(name.value))
      else
        FindSpec(emps, name.value);
        var e := emps[found.value];
        Found(ViewOf(e), InstructionsFor(e))
  }

  /** The HTTP status of a lookup. */
  function LookupStatus(r: LookupResult): int {
    if r.MissingName? then 400 else 200
  }

  /** The legal-history types are listed in order, one per entry. */
  lemma {:induction false} HistoryTypesSpec(h: seq<LegalEntry>)
    ensures forall i :: 0 <= i < |h| ==> HistoryTypes(h)[i] == TypeText(h[i])
  {
    if |h| > 0 {
      HistoryTypesSpec(h[1..]);
    }
  }

  /**
   * A lookup fails with 400 exactly when the name is missing or empty, finds
   * nothing exactly when the name search does, and otherwise describes the
   * employee found: direct reports present exactly when the list is
   * non-empty, counts equal to the list lengths, and the history sentence or
   * the first-time sentence.
   */
  lemma LookupSpec(emps: seq<Employee>, name: Option<string>)
    ensures var r := Lookup(emps, name);
      && (LookupStatus(r) == 400 <==> !Truthy(name))
      && (r.NotFound? <==> Truthy(name) && FindEmployeeByName(emps, name.value).None?)
      && (r.Found? ==>
            var e := emps[FindEmployeeByName(emps, name.value).value];
            && r.employee.name == e.name
            && (r.employee.hasDirectReports <==> |e.directReports| > 0)
            && r.employee.directReportsCount == |e.directReports|
            && r.employee.recentLegalInteractions == |e.legalHistory|
            && (|e.legalHistory| == 0 <==> r.aiInstructions.relevantHistory == FirstTimeText)
            && (|e.legalHistory| > 0 ==>
                  r.aiInstructions.relevantHistory
                    == "They previously worked with legal on: " + Join(HistoryTypes(e.legalHistory), ", ")))
  {
    if Truthy(name) && FindEmployeeByName(emps, name.value).Some? {
      FindSpec(emps, name.value);
      var e := emps[FindEmployeeByName(emps, name.value).value];
      HistoryTextDistinct(e);
    }
  }

  /** The first-contact sentence is never the text that lists earlier matters. */
  lemma HistoryTextDistinct(e: Employee)
    ensures |e.legalHistory| > 0 ==> RelevantHistory(e) != FirstTimeText
  {
    if |e.legalHistory| > 0 {
      var listed := Join(HistoryTypes(e.legalHistory), ", ");
      assert ("They previously worked with legal on: " + listed)[2] == 'e';
      assert FirstTimeText[2] == "This "[2] == 'i';
    }
  }

  // ---------------------------------------------------------------------------
  // Directory maintenance
  // ---------------------------------------------------------------------------

  /** `String(n).padStart(3, '0')`. */
  function Padded(n: nat): string {
    PadStart(NatToString(n), 3, '0')
  }

  /** `emp` followed by `n + 1`, zero-padded to three digits. */
  function NewId(n: nat): string {
    "emp" + Padded(n + 1)
  }

  /** Every employee's id is the one generated for its position, as for a directory built by adds alone. */
  predicate IdsByPosition(emps: seq<Employee>) {
    forall i :: 0 <= i < |emps| ==> emps[i].id == NewId(i)
  }

  lemma {:induction false} RepeatZerosValue(z: nat)
    ensures forall i :: 0 <= i < z ==> IsDigit(Repeat('0', z)[i])
    ensures DigitsValue(Repeat('0', z)) == 0
  {
    if z > 0 {
      RepeatZerosValue(z - 1);
      assert Repeat('0', z)[..z - 1] == Repeat('0', z - 1);
    }
  }

  /** Leading zeros do not change a digit string's value. */
  lemma {:induction false} LeadingZerosValue(z: nat, ds: string)
    requires forall i :: 0 <= i < |ds| ==> IsDigit(ds[i])
    ensures forall i :: 0 <= i < z + |ds| ==> IsDigit((Repeat('0', z) + ds)[i])
    ensures DigitsValue(Repeat('0', z) + ds) == DigitsValue(ds)
    decreases |ds|
  {
    RepeatZerosValue(z);
    if |ds| == 0 {
      assert Repeat('0', z) + ds == Repeat('0', z);
    } else {
      LeadingZerosValue(z, ds[..|ds| - 1]);
      var s := Repeat('0', z) + ds;
      assert s[..|s| - 1] == Repeat('0', z) + ds[..|ds| - 1];
    }
  }

  /** The zero-padded number is all digits and still denotes the number. */
  lemma PaddedValue(n: nat)
    ensures DigitsValue(Padded(n)) == n
  {
    var s := NatToString(n);
    DigitsValueOfNat(n);
    if |s| < 3 {
      LeadingZerosValue(3 - |s|, s);
    }
  }

  /** Generated ids are distinct: the padded number determines its position. */
  lemma NewIdInjective(m: nat, n: nat)
    requires NewId(m) == NewId(n)
    ensures m == n
  {
    SamePrefixSameRest("emp", Padded(m + 1), Padded(n + 1));
    PaddedInjective(m + 1, n + 1);
  }

  lemma PaddedInjective(a: nat, b: nat)
    requires Padded(a) == Padded(b)
    ensures a == b
  {
    PaddedValue(a);
    PaddedValue(b);
  }

  lemma SamePrefixSameRest(p: string, a: string, b: string)
    requires p + a == p + b
    ensures a == b
  {
    assert a == (p + a)[|p|..];
    assert b == (p + b)[|p|..];
  }

  /** In a directory whose ids follow the positions, no two employees share an id. */
  lemma IdsDistinct(emps: seq<Employee>)
    requires IdsByPosition(emps)
    ensures forall i, j :: 0 <= i < j < |emps| ==> emps[i].id != emps[j].id
  {
    forall i, j | 0 <= i < j < |emps|
      ensures emps[i].id != emps[j].id
    {
      if emps[i].id == emps[j].id {
        NewIdInjective(i, j);
      }
    }
  }

  /** The body of `POST /employee`; the seven identity fields are taken as given. */
  datatype NewEmployeeBody = NewEmployeeBody(
    name: string, firstName: string, lastName: string, email: string, team: string, department: string,
    title: string, location: Option<string>, manager: Option<string>, directReports: Option<seq<string>>,
    projects: Option<seq<string>>, specialties: Option<seq<string>>, legalHistory: Option<seq<LegalEntry>>,
    preferences: Option<Preferences>, notes: Option<string>)

  const DefaultPreferences: Preferences := Preferences("Professional", "EST", "Email")

  /** The employee `POST /employee` creates in a directory of `n`: absent arrays and objects default, falsy strings default. */
  function FromBody(n: nat, b: NewEmployeeBody): Employee {
    Employee(NewId(n), b.name, b.firstName, b.lastName, b.email, b.team, b.department, b.title,
             OrElse(b.location, "Unknown"),
             if Truthy(b.manager) then b.manager else None,
             if b.directReports.Some? then b.directReports.value else [],
             if b.projects.Some? then b.projects.value else [],
             if b.specialties.Some? then b.specialties.value else [],
             if b.legalHistory.Some? then b.legalHistory.value else [],
             if b.preferences.Some? then b.preferences.value else DefaultPreferences,
             OrElse(b.notes, ""))
  }

  /** A value in a `PATCH` body: a string or a list of strings. */
  datatype PatchValue = Text(text: string) | Texts(texts: seq<string>)

  /** The assignment `employee[key] = value` for one body key; `id` is skipped. */
  function SetField(e: Employee, key: string, v: PatchValue): Employee {
    if key == "id" then e
    else if v.Text? then
      if key == "name" then e.(name := v.text)
      else if key == "firstName" then e.(firstName := v.text)
      else if key == "lastName" then e.(lastName := v.text)
      else if key == "email" then e.(email := v.text)
      else if key == "team" then e.(team := v.text)
      else if key == "department" then e.(department := v.text)
      else if key == "title" then e.(title := v.text)
      else if key == "location" then e.(location := v.text)
      else if key == "manager" then e.(manager := Some(v.text))
      else if key == "notes" then e.(notes := v.text)
      else e
    else
      if key == "directReports" then e.(directReports := v.texts)
      else if key == "projects" then e.(projects := v.texts)
      else if key == "specialties" then e.(specialties := v.texts)
      else e
  }

  function TextOr(body: map<string, PatchValue>, key: string, old_: string): string {
    if key in body && body[key].Text? then body[key].text else old_
  }

  function TextsOr(body: map<string, PatchValue>, key: string, old_: seq<string>): seq<string> {
    if key in body && body[key].Texts? then body[key].texts else old_
  }

  /** Reference definition of a patched employee: each field takes the body's value for its key, if any; the id never changes. */
  function Patched(e: Employee, body: map<string, PatchValue>): Employee {
    e.(name := TextOr(body, "name", e.name),
       firstName := TextOr(body, "firstName", e.firstName),
       lastName := TextOr(body, "lastName", e.lastName),
       email := TextOr(body, "email", e.email),
       team := TextOr(body, "team", e.team),
       department := TextOr(body, "department", e.department),
       title := TextOr(body, "title", e.title),
       location := TextOr(body, "location", e.location),
       manager := if "manager" in body && body["manager"].Text? then Some(body["manager"].text) else e.manager,
       notes := TextOr(body, "notes", e.notes),
       directReports := TextsOr(body, "directReports", e.directReports),
       projects := TextsOr(body, "projects", e.projects),
       specialties := TextsOr(body, "specialties", e.specialties))
  }

  lemma TextOrStep(body: map<string, PatchValue>, key: string, v: PatchValue, field: string, x: string)
    requires key !in body
    ensures TextOr(body[key := v], field, x) == if key == field && v.Text? then v.text else TextOr(body, field, x)
  {
  }

  lemma TextsOrStep(body: map<string, PatchValue>, key: string, v: PatchValue, field: string, x: seq<string>)
    requires key !in body
    ensures TextsOr(body[key := v], field, x) == if key == field && v.Texts? then v.texts else TextsOr(body, field, x)
  {
  }

  /** Assigning one more key gives the reference result for the larger body. */
  lemma PatchStep(e: Employee, body: map<string, PatchValue>, key: string, v: PatchValue)
    requires key !in body
    ensures Patched(e, body[key := v]) == SetField(Patched(e, body), key, v)
  {
    TextOrStep(body, key, v, "name", e.name);
    TextOrStep(body, key, v, "firstName", e.firstName);
    TextOrStep(body, key, v, "lastName", e.lastName);
    TextOrStep(body, key, v, "email", e.email);
    TextOrStep(body, key, v, "team", e.team);
    TextOrStep(body, key, v, "department", e.department);
    TextOrStep(body, key, v, "title", e.title);
    TextOrStep(body, key, v, "location", e.location);
    TextOrStep(body, key, v, "notes", e.notes);
    TextsOrStep(body, key, v, "directReports", e.directReports);
    TextsOrStep(body, key, v, "projects", e.projects);
    TextsOrStep(body, key, v, "specialties", e.specialties);
  }

  /** A patch never changes the id or the legal history, and leaves an employee alone when the body is empty. */
  lemma PatchedKeeps(e: Employee, body: map<string, PatchValue>)
    ensures Patched(e, body).id == e.id
    ensures Patched(e, body).legalHistory == e.legalHistory
    ensures Patched(e, body).preferences == e.preferences
    ensures body == map[] ==> Patched(e, body) == e
  {
  }

  /** The index of the first employee with this id. */
  function IndexOfId(emps: seq<Employee>, id: string, i: nat): (r: Option<nat>)
    ensures r.Some? ==> i <= r.value < |emps| && emps[r.value].id == id
    ensures r.None? ==> forall j :: i <= j < |emps| ==> emps[j].id != id
    decreases |emps| - i
  {
    if i >= |emps| then None else if emps[i].id == id then Some(i) else IndexOfId(emps, id, i + 1)
  }

  /** `GET /employee/:id`: the first employee with that id, or none (404). */
  function EmployeeById(emps: seq<Employee>, id: string): (r: Option<Employee>)
    ensures r.Some? <==> exists j :: 0 <= j < |emps| && emps[j].id == id
    ensures r.Some? ==> r.value.id == id && r.value in emps
  {
    var k := IndexOfId(emps, id, 0);
    if k.Some? then Some(emps[k.value]) else None
  }

  /** One row of the `/employees` listing. */
  datatype EmployeeSummary = EmployeeSummary(id: string, name: string, team: string, title: string, email: string)

  function Summarize(e: Employee): EmployeeSummary {
    EmployeeSummary(e.id, e.name, e.team, e.title, e.email)
  }

  function Listing(emps: seq<Employee>): (r: seq<EmployeeSummary>)
    ensures |r| == |emps|
  {
    if |emps| == 0 then [] else [Summarize(emps[0])] + Listing(emps[1..])
  }

  /** The listing has one row per employee, in directory order, with its five fields. */
  lemma {:induction false} ListingSpec(emps: seq<Employee>)
    ensures forall i :: 0 <= i < |emps| ==>
      Listing(emps)[i] == EmployeeSummary(emps[i].id, emps[i].name, emps[i].team, emps[i].title, emps[i].email)
  {
    if |emps| > 0 {
      ListingSpec(emps[1..]);
    }
  }

  class EmployeeDb {
    var employees: seq<Employee>

    constructor (initial: seq<Employee>)
      ensures employees == initial
    {
      employees := initial;
    }

    /** `POST /employee`: appends one employee at the end. */
    method Add(b: NewEmployeeBody) returns (e: Employee)
      modifies this
      ensures e == FromBody(|old(employees)|, b)
      ensures employees == old(employees) + [e]
      ensures IdsByPosition(old(employees)) ==> IdsByPosition(employees)
    {
      e := FromBody(|employees|, b);
      employees := employees + [e];
    }

    /** `PATCH /employee/:id`: 404 for an unknown id; otherwise every body key but `id` is assigned on that employee. */
    method Patch(id: string, body: map<string, PatchValue>) returns (status: int)
      modifies this
      ensures var k := IndexOfId(old(employees), id, 0);
        && status == (if k.Some? then 200 else 404)
        && employees == if k.Some? then old(employees)[k.value := Patched(old(employees)[k.value], body)]
                        else old(employees)
      ensures IdsByPosition(old(employees)) ==> IdsByPosition(employees)
    {
      var emps := employees;
      var k := IndexOfId(emps, id, 0);
      if k.None? {
        return 404;
      }
      var original := emps[k.value];
      var e := original;
      var keys := body.Keys;
      while keys != {}
        invariant keys <= body.Keys
        invariant e == Patched(original, body - keys)
        decreases keys
      {
        var key :| key in keys;
        PatchStep(original, body - keys, key, body[key]);
        assert (body - keys)[key := body[key]] == body - (keys - {key});
        e := SetField(e, key, body[key]);
        keys := keys - {key};
      }
      assert body - keys == body;
      PatchedKeeps(original, body);
      employees := emps[k.value := e];
      status := 200;
    }

    /** `POST /employee/:id/legal-history`: 404 for an unknown id; otherwise one entry dated `today` is appended to that employee's history. */
    method AppendLegalHistory(id: string, entryType: Option<string>, description: Option<string>, today: string)
      returns (status: int)
      modifies this
      ensures var k := IndexOfId(old(employees), id, 0);
        && status == (if k.Some? then 200 else 404)
        && employees == if k.Some?
             then old(employees)[k.value := old(employees)[k.value].(legalHistory := old(employees)[k.value].legalHistory
                                                                         + [LegalEntry(today, entryType, description)])]
             else old(employees)
      ensures IdsByPosition(old(employees)) ==> IdsByPosition(employees)
    {
      var k := IndexOfId(employees, id, 0);
      if k.None? {
        return 404;
      }
      var e := employees[k.value];
      e := e.(legalHistory := e.legalHistory + [LegalEntry(today, entryType, description)]);
      employees := employees[k.value := e];
      status := 200;
    }

    /** `/employees`: the count and the five-field rows. */
    method List() returns (count: nat, rows: seq<EmployeeSummary>)
      ensures count == |employees| && rows == Listing(employees)
    {
      count := |employees|;
      rows := Listing(employees);
    }
  }
}
