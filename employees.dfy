/** The two employee pages reached by id: the QR page
    (src/pages/EmployeeDetail.jsx), whose QR code carries the URL of the
    profile card, and that card (src/pages/EmployeeProfile.jsx). Both look the
    employee up in the static employee list, never in the list page's state,
    so an employee added or edited there is not what they show. */
module Employees {
  import opened Wrappers
  import opened Text
  import opened Lists
  import opened Routing
  import opened Qr

  /** An employee id: a number (the static list) or a text (ids generated
      for added employees). */
  datatype Id = NumId(n: nat) | TextId(s: string)

  /** `String(id)` */
  function IdText(id: Id): string
  {
    match id
    case NumId(n) => NatToDecimal(n)
    case TextId(s) => s
  }

  /** A salary: a number in the static list, the input's text once edited. */
  datatype Salary = Amount(rupees: nat) | SalaryText(text: string)

  datatype Employee = Employee(
    id: Id, name: string, email: string, department: string,
    position: string, phone: string, salary: Salary)

  function EmployeeKey(e: Employee): string
  {
    IdText(e.id)
  }

  /** The lookup both pages make: the first employee whose stringified id
      equals the route's `:id`. */
  function Lookup(employees: seq<Employee>, routeId: string): Option<Employee>
  {
    Find(employees, EmployeeKey, routeId)
  }

  /** `employeeUrl`: the profile card's URL, always over `http:`. */
  function EmployeeQrUrl(hostname: string, port: string, e: Employee): string
  {
    Http + hostname + ":" + port + "/employee/qrcode/" + IdText(e.id)
  }

  datatype DetailView = DetailNotFound(text: string) | DetailQr(qr: QrRequest, backLink: string)

  /** The QR page's render over the records it searches: "Employee not
      found!" and no QR code when no record has the route's id; otherwise
      the QR code of the card URL of the first such record. */
  function DetailOf(employees: seq<Employee>, routeId: string, hostname: string, port: string): (v: DetailView)
    ensures v.DetailNotFound? <==> forall i :: 0 <= i < |employees| ==> IdText(employees[i].id) != routeId
    ensures v.DetailNotFound? ==> v.text == "Employee not found!"
    ensures v.DetailQr? ==> v.backLink == "/"
    ensures v.DetailQr? ==>
      exists i :: 0 <= i < |employees| && IdText(employees[i].id) == routeId
        && (forall j :: 0 <= j < i ==> IdText(employees[j].id) != routeId)
        && v.qr == HighQr(EmployeeQrUrl(hostname, port, employees[i]))
  {
    match Lookup(employees, routeId)
    case None => DetailNotFound("Employee not found!")
    case Some(e) => DetailQr(HighQr(EmployeeQrUrl(hostname, port, e)), "/")
  }

  /** The QR page as shipped: it searches the static list. */
  function EmployeeDetailView(routeId: string, hostname: string, port: string): (v: DetailView)
    ensures v.DetailNotFound? <==> forall i :: 0 <= i < |StaticEmployees| ==> IdText(StaticEmployees[i].id) != routeId
    ensures v.DetailNotFound? ==> v.text == "Employee not found!"
    ensures v.DetailQr? ==> v.backLink == "/"
    ensures v.DetailQr? ==>
      exists i :: 0 <= i < |StaticEmployees| && IdText(StaticEmployees[i].id) == routeId
        && (forall j :: 0 <= j < i ==> IdText(StaticEmployees[j].id) != routeId)
        && v.qr == HighQr(EmployeeQrUrl(hostname, port, StaticEmployees[i]))
  {
    DetailOf(StaticEmployees, routeId, hostname, port)
  }

  datatype ProfileView =
    | ProfileNotFound(text: string, backLink: string)
    | ProfileCard(heading: string, email: string, department: string,
                  position: string, phone: string, salary: Salary)

  /** The card of one employee: every field comes from that record. */
  function CardOf(e: Employee): ProfileView
  {
    ProfileCard(e.name + "'s Profile", e.email, e.department, e.position, e.phone, e.salary)
  }

  /** The profile page's render over the records it searches: "Employee
      not found!" with a link back to the list, or the card of the record the
      lookup finds. */
  function ProfileOf(employees: seq<Employee>, routeId: string): (v: ProfileView)
    ensures v.ProfileNotFound? <==> forall i :: 0 <= i < |employees| ==> IdText(employees[i].id) != routeId
    ensures v.ProfileNotFound? ==> v.text == "Employee not found!" && v.backLink == "/"
    ensures v.ProfileCard? ==>
      exists i :: 0 <= i < |employees| && IdText(employees[i].id) == routeId
        && (forall j :: 0 <= j < i ==> IdText(employees[j].id) != routeId) && v == CardOf(employees[i])
  {
    match Lookup(employees, routeId)
    case None => ProfileNotFound("Employee not found!", "/")
    case Some(e) => CardOf(e)
  }

  /** The profile page as shipped: it searches the static list. */
  function EmployeeProfileView(routeId: string): (v: ProfileView)
    ensures v.ProfileNotFound? <==> forall i :: 0 <= i < |StaticEmployees| ==> IdText(StaticEmployees[i].id) != routeId
    ensures v.ProfileNotFound? ==> v.text == "Employee not found!" && v.backLink == "/"
    ensures v.ProfileCard? ==>
      exists i :: 0 <= i < |StaticEmployees| && IdText(StaticEmployees[i].id) == routeId
        && (forall j :: 0 <= j < i ==> IdText(StaticEmployees[j].id) != routeId) && v == CardOf(StaticEmployees[i])
  {
    ProfileOf(StaticEmployees, routeId)
  }

  /** Both pages resolve a route id to the same employee: the QR page draws
      a code exactly when the profile page shows a card, and for the same
      record. */
  lemma SameLookup(routeId: string, hostname: string, port: string)
    ensures EmployeeDetailView(routeId, hostname, port).DetailQr? <==> EmployeeProfileView(routeId).ProfileCard?
    ensures Lookup(StaticEmployees, routeId).Some? ==>
      EmployeeDetailView(routeId, hostname, port).qr == HighQr(EmployeeQrUrl(hostname, port, Lookup(StaticEmployees, routeId).value))
      && EmployeeProfileView(routeId) == CardOf(Lookup(StaticEmployees, routeId).value)
  {
  }

  predicate UniqueIds(employees: seq<Employee>)
  {
    forall i, j :: 0 <= i < |employees| && 0 <= j < |employees| && i != j ==>
      IdText(employees[i].id) != IdText(employees[j].id)
  }

  lemma EmployeeUrlShape(hostname: string, port: string, e: Employee)
    ensures EmployeeQrUrl(hostname, port, e) ==
      Http + (hostname + ":" + port) + "/" + Join(["employee", "qrcode", IdText(e.id)], "/")
  {
    var parts := ["employee", "qrcode", IdText(e.id)];
    assert parts[1..] == ["qrcode", IdText(e.id)] && parts[1..][1..] == [IdText(e.id)];
    assert Join(["qrcode", IdText(e.id)], "/") == "qrcode" + "/" + IdText(e.id);
    assert Join(parts, "/") == "employee" + "/" + ("qrcode" + "/" + IdText(e.id));
  }

  lemma LiteralsArePlain()
    ensures PlainSegment("employee") && PlainSegment("qrcode")
  {
    forall i | 0 <= i < |"employee"| ensures "employee"[i] !in "/?#%\\\t\n\r" {
      assert "employee"[i] in "employee";
    }
    forall i | 0 <= i < |"qrcode"| ensures "qrcode"[i] !in "/?#%\\\t\n\r" {
      assert "qrcode"[i] in "qrcode";
    }
  }

  lemma ResolveCardPath(id: string)
    ensures Resolve(EmployeeRoutes, ["employee", "qrcode", id]) == Some(RouteMatch(EmployeeCard, map["id" := id]))
  {
    var parts := ["employee", "qrcode", id];
    var m := map["id" := id];
    assert MatchPattern(EmployeeRoutes[1].pattern, parts).None? by {
      assert MatchPattern(EmployeeRoutes[1].pattern[1..][1..], parts[1..][1..]).None?;
    }
    var route := EmployeeRoutes[2];
    assert route.pattern == [Lit("employee"), Lit("qrcode"), Param("id")];
    assert MatchPattern(route.pattern, parts) == Some(m) by {
      assert MatchPattern(route.pattern[1..][1..][1..], parts[1..][1..][1..]) == Some(map[]);
    }
    ResolveAt(EmployeeRoutes, 2, parts, m);
  }

  /** The list's QR link names the employee's id as the second segment. */
  lemma ResolveDetailPath(id: string)
    requires PlainSegment(id)
    ensures ResolvePath(EmployeeRoutes, "/employee/" + id) == Some(RouteMatch(EmployeeQrCode, map["id" := id]))
  {
    var parts := ["employee", id];
    assert "/employee/" + id == "/" + Join(parts, "/");
    LiteralsArePlain();
    SegmentsOfPath(parts);
    var m := map["id" := id];
    var route := EmployeeRoutes[1];
    assert route.pattern == [Lit("employee"), Param("id")];
    assert MatchPattern(route.pattern, parts) == Some(m) by {
      assert MatchPattern(route.pattern[1..][1..], parts[1..][1..]) == Some(map[]);
    }
    ResolveAt(EmployeeRoutes, 1, parts, m);
  }

  /** The QR round trip on any list with unique ids: the URL in an
      employee's QR code opens the profile route with that employee's id,
      and a lookup of that id in the same list finds that same employee,
      provided each id is one plain path segment. */
  lemma {:induction false} QrOpensSameEmployee(employees: seq<Employee>, i: nat, hostname: string, port: string)
    requires i < |employees| && UniqueIds(employees)
    requires PlainSegment(IdText(employees[i].id))
    requires PlainAuthority(hostname + ":" + port)
    ensures ResolveUrl(EmployeeRoutes, EmployeeQrUrl(hostname, port, employees[i])) ==
      Some(RouteMatch(EmployeeCard, map["id" := IdText(employees[i].id)]))
    ensures Lookup(employees, IdText(employees[i].id)) == Some(employees[i])
  {
    var e := employees[i];
    var parts := ["employee", "qrcode", IdText(e.id)];
    EmployeeUrlShape(hostname, port, e);
    LiteralsArePlain();
    ResolveUrlOfPath(EmployeeRoutes, hostname + ":" + port, parts);
    ResolveCardPath(IdText(e.id));
    FindUnique(employees, EmployeeKey, i);
  }

  /** The list page's QR link for an employee. */
  function DetailPath(e: Employee): string
  {
    "/employee/" + IdText(e.id)
  }

  // ----------------------------------------------------------------------
  // The static employee list both pages search
  // ----------------------------------------------------------------------

  const StaticEmployees: seq<Employee> := [
    Employee(NumId(1), "Amit Sharma", "amit.sharma@example.com", "Engineering", "Software Engineer", "+91 9876543210", Amount(75000)),
    Employee(NumId(2), "Neha Verma", "neha.verma@example.com", "HR", "HR Manager", "+91 9876543211", Amount(60000)),
    Employee(NumId(3), "Ravi Kumar", "ravi.kumar@example.com", "Engineering", "Frontend Developer", "+91 9876543212", Amount(72000)),
    Employee(NumId(4), "Sonia Gupta", "sonia.gupta@example.com", "Marketing", "Marketing Executive", "+91 9876543213", Amount(50000)),
    Employee(NumId(5), "Vikas Yadav", "vikas.yadav@example.com", "Finance", "Accountant", "+91 9876543214", Amount(65000)),
    Employee(NumId(6), "Priya Mehta", "priya.mehta@example.com", "Customer Support", "Support Representative", "+91 9876543215", Amount(45000)),
    Employee(NumId(7), "Rajesh Singh", "rajesh.singh@example.com", "Engineering", "Backend Developer", "+91 9876543216", Amount(78000)),
    Employee(NumId(8), "Kavita Das", "kavita.das@example.com", "Sales", "Sales Manager", "+91 9876543217", Amount(70000)),
    Employee(NumId(9), "Anil Pandey", "anil.pandey@example.com", "Admin", "Office Administrator", "+91 9876543218", Amount(55000)),
    Employee(NumId(10), "Meera Nair", "meera.nair@example.com", "Engineering", "DevOps Engineer", "+91 9876543219", Amount(80000))
  ]

  /** The static list's ids are 1 to 10 in order, so their texts are
      distinct plain segments. */
  lemma StaticIdsUnique()
    ensures UniqueIds(StaticEmployees)
    ensures forall i :: 0 <= i < |StaticEmployees| ==> PlainSegment(IdText(StaticEmployees[i].id))
  {
    assert forall i :: 0 <= i < |StaticEmployees| ==> StaticEmployees[i].id == NumId(i + 1);
    forall i, j | 0 <= i < |StaticEmployees| && 0 <= j < |StaticEmployees| && i != j
      ensures IdText(StaticEmployees[i].id) != IdText(StaticEmployees[j].id)
    {
      NatToDecimalInjective(i + 1, j + 1);
    }
    forall i | 0 <= i < |StaticEmployees| ensures PlainSegment(IdText(StaticEmployees[i].id)) {
      DecimalIsPlain(i + 1);
    }
  }

  /** Every QR code the QR page draws for an employee of the static list
      opens the card of that same employee. */
  lemma StaticQrRoundTrip(i: nat, hostname: string, port: string)
    requires i < |StaticEmployees|
    requires PlainAuthority(hostname + ":" + port)
    ensures EmployeeDetailView(IdText(StaticEmployees[i].id), hostname, port) ==
      DetailQr(HighQr(EmployeeQrUrl(hostname, port, StaticEmployees[i])), "/")
    ensures ResolveUrl(EmployeeRoutes, EmployeeQrUrl(hostname, port, StaticEmployees[i])) ==
      Some(RouteMatch(EmployeeCard, map["id" := IdText(StaticEmployees[i].id)]))
    ensures EmployeeProfileView(IdText(StaticEmployees[i].id)) == CardOf(StaticEmployees[i])
  {
    StaticIdsUnique();
    QrOpensSameEmployee(StaticEmployees, i, hostname, port);
  }

  /** The pages know exactly the ids 1 to 10: a numeric id shows a card
      (and a QR code) exactly when it is one of those. */
  lemma StaticIdsFound(n: nat, hostname: string, port: string)
    ensures EmployeeProfileView(NatToDecimal(n)).ProfileCard? <==> 1 <= n <= 10
    ensures EmployeeDetailView(NatToDecimal(n), hostname, port).DetailQr? <==> 1 <= n <= 10
  {
    assert forall i :: 0 <= i < |StaticEmployees| ==> StaticEmployees[i].id == NumId(i + 1);
    if 1 <= n <= 10 {
      assert IdText(StaticEmployees[n - 1].id) == NatToDecimal(n);
    } else {
      forall i | 0 <= i < |StaticEmployees| ensures IdText(StaticEmployees[i].id) != NatToDecimal(n) {
        NatToDecimalInjective(i + 1, n);
      }
    }
  }

  /** An id that is not all digits, such as a generated one, is never
      found: both pages show "Employee not found!". */
  lemma TextIdNotFound(s: string, hostname: string, port: string)
    requires exists k :: 0 <= k < |s| && !IsDigit(s[k])
    ensures EmployeeDetailView(s, hostname, port) == DetailNotFound("Employee not found!")
    ensures EmployeeProfileView(s) == ProfileNotFound("Employee not found!", "/")
  {
    var k :| 0 <= k < |s| && !IsDigit(s[k]);
    assert forall i :: 0 <= i < |StaticEmployees| ==> StaticEmployees[i].id == NumId(i + 1);
    forall i | 0 <= i < |StaticEmployees| ensures IdText(StaticEmployees[i].id) != s {
      var d := NatToDecimal(i + 1);
      if |d| == |s| {
        assert IsDigit(d[k]);
      }
    }
  }
}
