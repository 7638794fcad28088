/** The employee list page (src/pages/EmployeePage.jsx): an in-memory list
    of employees, starting from the static list, with a form that adds a new
    employee or updates the one being edited, and per-row edit and delete. */
module EmployeePage {
  import opened Wrappers
  import opened Text
  import opened Lists
  import opened Employees
  import opened Routing
  import opened Qr

  /** The inputs of the form. */
  datatype FormField = NameField | EmailField | DepartmentField | PositionField | PhoneField | SalaryField

  /** The `newEmployee` record: the six inputs, and the id as well once an
      employee has been loaded into it for editing. */
  datatype EmployeeForm = EmployeeForm(
    id: Option<Id>, name: string, email: string, department: string,
    position: string, phone: string, salary: Salary)

  /** Six empty inputs: the initial form and the form after add or update. */
  const EmptyForm := EmployeeForm(None, "", "", "", "", "", SalaryText(""))

  /** The page's state. */
  datatype PageState = PageState(employees: seq<Employee>, form: EmployeeForm, editingId: Option<Id>)

  function EmployeeRef(e: Employee): Option<Id>
  {
    Some(e.id)
  }

  function EmployeeIdOf(e: Employee): Id
  {
    e.id
  }

  /** JavaScript truthiness of `editingId`. */
  predicate IdTruthy(id: Option<Id>)
  {
    match id
    case None => false
    case Some(NumId(n)) => n != 0
    case Some(TextId(s)) => s != ""
  }

  /** `handleChange`: one input's new text. */
  function WithField(f: EmployeeForm, field: FormField, value: string): EmployeeForm
  {
    match field
    case NameField => f.(name := value)
    case EmailField => f.(email := value)
    case DepartmentField => f.(department := value)
    case PositionField => f.(position := value)
    case PhoneField => f.(phone := value)
    case SalaryField => f.(salary := SalaryText(value))
  }

  /** `{ id: nanoid(), ...newEmployee }`: an id in the form wins. */
  function NewRecord(f: EmployeeForm, freshId: Id): Employee
  {
    Employee(f.id.GetOr(freshId), f.name, f.email, f.department, f.position, f.phone, f.salary)
  }

  /** `{ ...emp, ...newEmployee }` */
  function Merge(e: Employee, f: EmployeeForm): Employee
  {
    Employee(f.id.GetOr(e.id), f.name, f.email, f.department, f.position, f.phone, f.salary)
  }

  /** The form loaded with a record. */
  function FormOf(e: Employee): EmployeeForm
  {
    EmployeeForm(Some(e.id), e.name, e.email, e.department, e.position, e.phone, e.salary)
  }

  // ----------------------------------------------------------------------
  // The handlers, as transitions of the page state
  // ----------------------------------------------------------------------

  function ChangeStep(s: PageState, field: FormField, value: string): PageState
  {
    s.(form := WithField(s.form, field, value))
  }

  function AddStep(s: PageState, freshId: Id): PageState
  {
    if s.form.name == "" || s.form.email == "" then s
    else s.(employees := s.employees + [NewRecord(s.form, freshId)], form := EmptyForm)
  }

  function DeleteStep(s: PageState, id: Id, confirmed: bool): PageState
  {
    if confirmed then s.(employees := RemoveKey(s.employees, EmployeeIdOf, id)) else s
  }

  /** `handleEdit` is only offered on a listed employee's row. */
  predicate Listed(employees: seq<Employee>, id: Id)
  {
    exists i :: 0 <= i < |employees| && employees[i].id == id
  }

  function EditStep(s: PageState, id: Id): PageState
    requires Listed(s.employees, id)
  {
    var e := Find(s.employees, EmployeeIdOf, id);
    s.(editingId := Some(id), form := FormOf(e.value))
  }

  function UpdateStep(s: PageState): PageState
  {
    PageState(UpdateKey(s.employees, EmployeeRef, s.editingId, e => Merge(e, s.form)), EmptyForm, None)
  }

  /** `onSubmit={editingId ? handleUpdateEmployee : handleAddEmployee}` */
  function SubmitStep(s: PageState, freshId: Id): PageState
  {
    if IdTruthy(s.editingId) then UpdateStep(s) else AddStep(s, freshId)
  }

  // ----------------------------------------------------------------------
  // The browser's constraint validation of the form
  // ----------------------------------------------------------------------

  predicate Alnum(c: char)
  {
    'a' <= c <= 'z' || 'A' <= c <= 'Z' || '0' <= c <= '9'
  }

  /** A label of the domain part: 1 to 63 letters, digits or '-', starting
      and ending with a letter or digit. */
  predicate ValidLabel(l: string)
  {
    1 <= |l| <= 63 && Alnum(l[0]) && Alnum(l[|l| - 1])
    && forall i :: 0 <= i < |l| ==> Alnum(l[i]) || l[i] == '-'
  }

  /** A valid e-mail address in the sense of the HTML standard's `email`
      input: a non-empty local part of letters, digits and the characters
      `.!#$%&'*+/=?^_`{|}~-`, an '@', and '.'-separated valid labels. */
  predicate ValidEmail(s: string)
  {
    exists k :: 0 <= k < |s| && s[k] == '@'
      && k > 0 && (forall i :: 0 <= i < k ==> Alnum(s[i]) || s[i] in ".!#$%&'*+/=?^_`{|}~-")
      && forall l :: l in Split(s[k + 1..], ".") ==> ValidLabel(l)
  }

  /** The browser dispatches `submit` only when the `required` name input is
      non-empty and the `required` `type="email"` input holds a valid
      address; otherwise neither handler runs. */
  predicate Submittable(f: EmployeeForm)
  {
    f.name != "" && f.email != "" && ValidEmail(f.email)
  }

  /** Every record has a name and an e-mail address. */
  predicate Complete(employees: seq<Employee>)
  {
    forall i :: 0 <= i < |employees| ==> employees[i].name != "" && employees[i].email != ""
  }

  // ----------------------------------------------------------------------
  // What the handlers promise
  // ----------------------------------------------------------------------

  /** The text an input shows. */
  function Input(f: EmployeeForm, field: FormField): string
  {
    match field
    case NameField => f.name
    case EmailField => f.email
    case DepartmentField => f.department
    case PositionField => f.position
    case PhoneField => f.phone
    case SalaryField =>
      match f.salary
      case Amount(n) => NatToDecimal(n)
      case SalaryText(t) => t
  }

  /** Typing changes that one input of the form and nothing else. */
  lemma ChangeOnlyThatInput(s: PageState, field: FormField, value: string)
    ensures var t := ChangeStep(s, field, value);
      && t.employees == s.employees && t.editingId == s.editingId && t.form.id == s.form.id
      && Input(t.form, field) == value
      && forall other: FormField :: other != field ==> Input(t.form, other) == Input(s.form, other)
  {
  }

  /** Without a name or an email, adding changes nothing at all. */
  lemma AddNeedsNameAndEmail(s: PageState, freshId: Id)
    requires s.form.name == "" || s.form.email == ""
    ensures AddStep(s, freshId) == s
  {
  }

  /** A successful add appends exactly one record, made of the form's
      fields, after the unchanged existing records, and empties the form. */
  lemma AddAppendsOne(s: PageState, freshId: Id)
    requires s.form.name != "" && s.form.email != ""
    ensures var t := AddStep(s, freshId);
      && |t.employees| == |s.employees| + 1
      && t.employees[..|s.employees|] == s.employees
      && t.employees[|s.employees|] ==
           Employee(if s.form.id.Some? then s.form.id.value else freshId,
                    s.form.name, s.form.email, s.form.department, s.form.position, s.form.phone, s.form.salary)
      && t.form == EmptyForm && t.editingId == s.editingId
  {
    var t := AddStep(s, freshId);
    assert t.employees[..|s.employees|] == s.employees;
  }

  /** Deleting needs confirmation; a confirmed delete removes every record
      with the id, keeps every other record and adds none. */
  lemma DeleteRemovesOnlyThatId(s: PageState, id: Id, confirmed: bool)
    ensures !confirmed ==> DeleteStep(s, id, confirmed) == s
    ensures confirmed ==> var t := DeleteStep(s, id, confirmed);
      && t.form == s.form && t.editingId == s.editingId
      && (forall i :: 0 <= i < |t.employees| ==> t.employees[i].id != id)
      && (forall i :: 0 <= i < |s.employees| && s.employees[i].id != id ==> s.employees[i] in t.employees)
      && (forall i :: 0 <= i < |t.employees| ==> t.employees[i] in s.employees)
  {
  }

  /** Adding a record under a new id and then deleting that id gives the
      list back. */
  lemma {:induction false} DeleteUndoesAdd(s: PageState, freshId: Id)
    requires s.form.name != "" && s.form.email != ""
    requires forall i :: 0 <= i < |s.employees| ==> s.employees[i].id != NewRecord(s.form, freshId).id
    ensures DeleteStep(AddStep(s, freshId), NewRecord(s.form, freshId).id, true).employees == s.employees
  {
    var r := NewRecord(s.form, freshId);
    RemoveKeyAppend(s.employees, [r], EmployeeIdOf, r.id);
    RemoveKeyAbsent(s.employees, EmployeeIdOf, r.id);
    assert RemoveKey([r], EmployeeIdOf, r.id) == [] by {
      assert [r][1..] == [];
    }
    assert s.employees + [] == s.employees;
  }

  /** Editing marks the employee as being edited and loads the first record
      with that id into the form. */
  lemma EditLoadsRecord(s: PageState, id: Id)
    requires Listed(s.employees, id)
    ensures var t := EditStep(s, id);
      && t.editingId == Some(id) && t.employees == s.employees
      && t.form.id == Some(id)
      && exists i :: 0 <= i < |s.employees| && s.employees[i].id == id && t.form == FormOf(s.employees[i])
  {
  }

  /** An update merges the form over the record being edited, keeps every
      other record and the length, stops editing and empties the form. */
  lemma UpdateMergesTarget(s: PageState)
    ensures var t := UpdateStep(s);
      && |t.employees| == |s.employees|
      && (forall i :: 0 <= i < |s.employees| && Some(s.employees[i].id) != s.editingId ==>
            t.employees[i] == s.employees[i])
      && (forall i :: 0 <= i < |s.employees| && Some(s.employees[i].id) == s.editingId ==>
            t.employees[i] == Merge(s.employees[i], s.form))
      && t.editingId.None? && t.form == EmptyForm
  {
  }

  /** Editing an employee whose id is unique and submitting the form
      unchanged leaves the list as it was. */
  lemma EditThenUpdateUnchanged(s: PageState, i: nat)
    requires i < |s.employees|
    requires forall j :: 0 <= j < |s.employees| && j != i ==> s.employees[j].id != s.employees[i].id
    ensures Listed(s.employees, s.employees[i].id)
    ensures UpdateStep(EditStep(s, s.employees[i].id)).employees == s.employees
  {
    var id := s.employees[i].id;
    FindUnique(s.employees, EmployeeIdOf, i);
    var t := EditStep(s, id);
    assert t.form == FormOf(s.employees[i]);
    var u := UpdateStep(t);
    forall j | 0 <= j < |s.employees| ensures u.employees[j] == s.employees[j] {
      if j == i {
        assert Merge(s.employees[i], t.form) == s.employees[i];
      }
    }
  }

  /** Submit updates exactly when `editingId` is truthy, and adds otherwise;
      an id of 0 or "" therefore adds. */
  lemma SubmitDispatch(s: PageState, freshId: Id)
    ensures IdTruthy(s.editingId) ==> SubmitStep(s, freshId) == UpdateStep(s)
    ensures !IdTruthy(s.editingId) ==> SubmitStep(s, freshId) == AddStep(s, freshId)
    ensures IdTruthy(s.editingId) ==> SubmitStep(s, freshId).editingId.None?
  {
  }

  /** An empty name, or an address without '@', stops the submit. */
  lemma MalformedFormNotSubmittable(f: EmployeeForm)
    requires f.name == "" || '@' !in f.email
    ensures !Submittable(f)
  {
  }

  /** The page starts from complete records. */
  lemma StaticListComplete()
    ensures Complete(StaticEmployees)
  {
  }

  /** A submitted form has a name and an e-mail address, so submitting
      keeps every record complete, in both modes: an add appends a complete
      record, an update merges the form's name and address over the target. */
  lemma SubmitKeepsRecordsComplete(s: PageState, freshId: Id)
    requires Submittable(s.form) && Complete(s.employees)
    ensures Complete(SubmitStep(s, freshId).employees)
  {
    if IdTruthy(s.editingId) {
      var t := UpdateStep(s);
      forall i | 0 <= i < |t.employees| ensures t.employees[i].name != "" && t.employees[i].email != "" {
        if Some(s.employees[i].id) == s.editingId {
          assert t.employees[i] == Merge(s.employees[i], s.form);
        }
      }
    } else {
      var t := AddStep(s, freshId);
      forall i | 0 <= i < |t.employees| ensures t.employees[i].name != "" && t.employees[i].email != "" {
        if i < |s.employees| {
          assert t.employees[i] == s.employees[i];
        }
      }
    }
  }

  /** No other handler empties a name or an address of the list. */
  lemma OtherStepsKeepRecordsComplete(s: PageState, field: FormField, value: string, id: Id, confirmed: bool)
    requires Complete(s.employees)
    ensures Complete(ChangeStep(s, field, value).employees)
    ensures Complete(DeleteStep(s, id, confirmed).employees)
    ensures Listed(s.employees, id) ==> Complete(EditStep(s, id).employees)
  {
    var d := DeleteStep(s, id, confirmed).employees;
    forall i | 0 <= i < |d| ensures d[i].name != "" && d[i].email != "" {
      assert d[i] in s.employees;
    }
  }

  // ----------------------------------------------------------------------
  // The rows' QR links
  // ----------------------------------------------------------------------

  /** A row's QR link opens the QR page with the row's id. That page searches
      the static list, not this page's records: it draws the row's QR code
      when some static record has the same id and says "Employee not found!"
      otherwise, whatever this page holds. */
  lemma {:induction false} ListLinkOpensQrPage(s: PageState, i: nat, hostname: string, port: string)
    requires i < |s.employees| && PlainSegment(IdText(s.employees[i].id))
    ensures ResolvePath(EmployeeRoutes, DetailPath(s.employees[i])) ==
      Some(RouteMatch(EmployeeQrCode, map["id" := IdText(s.employees[i].id)]))
    ensures var id := IdText(s.employees[i].id);
      EmployeeDetailView(id, hostname, port) ==
        if exists j :: 0 <= j < |StaticEmployees| && IdText(StaticEmployees[j].id) == id
        then DetailQr(HighQr(EmployeeQrUrl(hostname, port, s.employees[i])), "/")
        else DetailNotFound("Employee not found!")
  {
    ResolveDetailPath(IdText(s.employees[i].id));
  }

  /** An employee added with a generated id that is not all digits is listed
      on this page, yet its QR link shows "Employee not found!", and so would
      its card's URL. */
  lemma AddedEmployeeNotFound(s: PageState, freshId: string, hostname: string, port: string)
    requires s.form.name != "" && s.form.email != "" && s.form.id.None?
    requires exists k :: 0 <= k < |freshId| && !IsDigit(freshId[k])
    ensures var t := AddStep(s, TextId(freshId));
      && t.employees[|t.employees| - 1].id == TextId(freshId)
      && EmployeeDetailView(freshId, hostname, port) == DetailNotFound("Employee not found!")
      && EmployeeProfileView(freshId) == ProfileNotFound("Employee not found!", "/")
  {
    TextIdNotFound(freshId, hostname, port);
  }

  // ----------------------------------------------------------------------
  // The component
  // ----------------------------------------------------------------------

  class EmployeeListPage {
    var employees: seq<Employee>
    var form: EmployeeForm
    var editingId: Option<Id>

    function State(): PageState
      reads this
    {
      PageState(employees, form, editingId)
    }

    /** The page starts from the static list, with an empty form. */
    constructor()
      ensures State() == PageState(StaticEmployees, EmptyForm, None)
    {
      employees, form, editingId := StaticEmployees, EmptyForm, None;
    }

    method HandleChange(field: FormField, value: string)
      modifies this
      ensures State() == ChangeStep(old(State()), field, value)
    {
      form := WithField(form, field, value);
    }

    method HandleAddEmployee(freshId: Id)
      modifies this
      ensures State() == AddStep(old(State()), freshId)
    {
      if form.name == "" || form.email == "" {
        return;
      }
      var record := NewRecord(form, freshId);
      employees := employees + [record];
      form := EmptyForm;
    }

    method HandleDelete(id: Id, confirmed: bool)
      modifies this
      ensures State() == DeleteStep(old(State()), id, confirmed)
    {
      if confirmed {
        employees := RemoveKey(employees, EmployeeIdOf, id);
      }
    }

    method HandleEdit(id: Id)
      requires Listed(employees, id)
      modifies this
      ensures Listed(old(employees), id)
      ensures State() == EditStep(old(State()), id)
    {
      editingId := Some(id);
      var e := Find(employees, EmployeeIdOf, id);
      form := FormOf(e.value);
    }

    /** Runs only as the submit of a form the browser accepted. */
    method HandleUpdateEmployee()
      requires Submittable(form)
      modifies this
      ensures State() == UpdateStep(old(State()))
    {
      var f := form;
      employees := UpdateKey(employees, EmployeeRef, editingId, e => Merge(e, f));
      editingId := None;
      form := EmptyForm;
    }

    /** The form's `submit`, which the browser dispatches only for a
        submittable form. */
    method Submit(freshId: Id)
      requires Submittable(form)
      modifies this
      ensures State() == SubmitStep(old(State()), freshId)
    {
      if IdTruthy(editingId) {
        HandleUpdateEmployee();
      } else {
        HandleAddEmployee(freshId);
      }
    }
  }
}
