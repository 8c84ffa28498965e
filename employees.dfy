/**
 * The employee directory shared by the two tool servers, and its name search:
 * an exact case-insensitive match on the full name, the first name or
 * "first last" wins; otherwise the first employee one of whose names
 * contains the query; otherwise none.
 */
module Employees {
  import opened Text

  datatype LegalEntry = LegalEntry(date: string, entryType: Option<string>, description: Option<string>)

  datatype Preferences = Preferences(communicationStyle: string, timezone: string, urgentContactMethod: string)

  datatype Employee = Employee(
    id: string,
    name: string,
    firstName: string,
    lastName: string,
    email: string,
    team: string,
    department: string,
    title: string,
    location: string,
    manager: Option<string>,
    directReports: seq<string>,
    projects: seq<string>,
    specialties: seq<string>,
    legalHistory: seq<LegalEntry>,
    preferences: Preferences,
    notes: string)

  /** `name.toLowerCase().trim()`. */
  function SearchKey(name: string): string {
    Trim(Lower(name))
  }

  predicate IsExact(e: Employee, key: string) {
    Lower(e.name) == key || Lower(e.firstName) == key || Lower(e.firstName) + " " + Lower(e.lastName) == key
  }

  predicate IsPartial(e: Employee, key: string) {
    Contains(Lower(e.firstName), key) || Contains(Lower(e.lastName), key) || Contains(Lower(e.name), key)
  }

  /** The index of the first exact match at or after `i`. */
  function FirstExact(emps: seq<Employee>, key: string, i: nat): (r: Option<nat>)
    ensures r.Some? ==>
      i <= r.value < |emps| && IsExact(emps[r.value], key) && forall j :: i <= j < r.value ==> !IsExact(emps[j], key)
    ensures r.None? ==> forall j :: i <= j < |emps| ==> !IsExact(emps[j], key)
    decreases |emps| - i
  {
    if i >= |emps| then None
    else if IsExact(emps[i], key) then Some(i)
    else FirstExact(emps, key, i + 1)
  }

  /** The index of the first partial match at or after `i`. */
  function FirstPartial(emps: seq<Employee>, key: string, i: nat): (r: Option<nat>)
    ensures r.Some? ==>
      i <= r.value < |emps| && IsPartial(emps[r.value], key) && forall j :: i <= j < r.value ==> !IsPartial(emps[j], key)
    ensures r.None? ==> forall j :: i <= j < |emps| ==> !IsPartial(emps[j], key)
    decreases |emps| - i
  {
    if i >= |emps| then None
    else if IsPartial(emps[i], key) then Some(i)
    else FirstPartial(emps, key, i + 1)
  }

  /** `findEmployeeByName(name)`, as the index of the employee found. */
  function FindEmployeeByName(emps: seq<Employee>, name: string): Option<nat> {
    var key := SearchKey(name);
    var exact := FirstExact(emps, key, 0);
    if exact.Some? then exact else FirstPartial(emps, key, 0)
  }

  /**
   * An exact match anywhere beats every partial match: the first exact match
   * in list order is returned; without one, the first partial match; the
   * search fails only when there is neither.
   */
  lemma FindSpec(emps: seq<Employee>, name: string)
    ensures var r := FindEmployeeByName(emps, name); var key := SearchKey(name);
      && (r.Some? ==> r.value < |emps|)
      && ((exists j :: 0 <= j < |emps| && IsExact(emps[j], key)) ==>
            r.Some? && IsExact(emps[r.value], key) && forall j :: 0 <= j < r.value ==> !IsExact(emps[j], key))
      && ((forall j :: 0 <= j < |emps| ==> !IsExact(emps[j], key)) ==>
            r == FirstPartial(emps, key, 0))
      && (r.None? <==> forall j :: 0 <= j < |emps| ==> !IsExact(emps[j], key) && !IsPartial(emps[j], key))
  {
  }

  /** The search reads its query case-insensitively and ignores white space around it. */
  lemma SearchIgnoresCaseAndPadding(emps: seq<Employee>, a: string, b: string, ws1: string, ws2: string)
    requires Lower(a) == Lower(b) && AllSpace(ws1) && AllSpace(ws2)
    ensures FindEmployeeByName(emps, ws1 + a + ws2) == FindEmployeeByName(emps, b)
  {
    LowerConcat(ws1, a);
    LowerConcat(ws1 + a, ws2);
    LowerAllSpace(ws1);
    LowerAllSpace(ws2);
    TrimIgnoresPadding(ws1, Lower(a), ws2);
  }

  /** A query naming a stored first name or full name, in any case and with any padding,
      matches that employee exactly (and therefore partially too). */
  lemma ExactIgnoresCaseAndPadding(e: Employee, query: string, ws1: string, ws2: string)
    requires Trim(e.firstName) == e.firstName && Trim(e.name) == e.name
    requires AllSpace(ws1) && AllSpace(ws2)
    requires Lower(query) == Lower(e.firstName) || Lower(query) == Lower(e.name)
    ensures IsExact(e, SearchKey(ws1 + query + ws2))
    ensures IsPartial(e, SearchKey(ws1 + query + ws2))
  {
    LowerConcat(ws1, query);
    LowerConcat(ws1 + query, ws2);
    LowerAllSpace(ws1);
    LowerAllSpace(ws2);
    TrimIgnoresPadding(ws1, Lower(query), ws2);
    var key := SearchKey(ws1 + query + ws2);
    if Lower(query) == Lower(e.firstName) {
      TrimLower(e.firstName);
      assert key == Lower(e.firstName);
      assert StartsWith(Lower(e.firstName), key);
    } else {
      TrimLower(e.name);
      assert key == Lower(e.name);
      assert StartsWith(Lower(e.name), key);
    }
  }
}
