/**
 * The tracker's single-page front end (front-end/src/App.jsx): the fixed
 * status-to-percentage table, the new-application form, the request bodies it
 * builds, and the three state slots its handlers replace. The outcome of each
 * HTTP request is a parameter; what the handler does with it is modelled.
 */
module Tracker {
  import opened Json
  import opened Text
  import Validation
  import Store

  // ---------------------------------------------------------------------------
  // STATUS_PROGRESS

  /** The keys of `STATUS_PROGRESS` in the order `Object.keys` lists them. */
  const StatusKeys: seq<string> :=
    ["applied", "oa sent", "oa received", "interviewed", "offered", "accepted", "rejected"]

  const StatusProgress: map<string, int> :=
    map["applied" := 10, "oa sent" := 40, "oa received" := 25, "interviewed" := 60,
        "offered" := 85, "accepted" := 100, "rejected" := 0]

  /** `STATUS_PROGRESS[status]` where it is a number; `None` is JavaScript's
      `undefined`, and also stands for the inherited names below. */
  function ProgressOf(status: string): (r: Option<int>)
    ensures r.Some? <==> status in StatusKeys
    ensures r.Some? ==> 0 <= r.value <= 100
  {
    if status in StatusProgress then Some(StatusProgress[status]) else None
  }

  /** The one name the table inherits whose value is an object:
      `STATUS_PROGRESS["__proto__"]` is `Object.prototype`. The other inherited
      names (`toString`, `constructor`, ...) give functions. */
  const ProtoKey: string := "__proto__"

  /** The `progress` member `JSON.stringify` writes for `STATUS_PROGRESS[status]`:
      the number for a table key, `{}` for `Object.prototype`, and nothing for
      `undefined` or a function, which it leaves out. */
  function ProgressField(status: string): (r: Option<Value>)
    ensures status in StatusKeys ==> r == Some(Int(StatusProgress[status]))
    ensures status == ProtoKey ==> r == Some(Other)
    ensures r.Some? <==> status in StatusKeys || status == ProtoKey
  {
    match ProgressOf(status)
    case Some(p) => Some(Int(p))
    case None => if status == ProtoKey then Some(Other) else None
  }

  /** The front end's table lists exactly the backend's statuses, in the same
      order, and every percentage lies in 0..100. */
  lemma StatusTablesAgree()
    ensures StatusKeys == Validation.Statuses
    ensures StatusProgress.Keys == set s | s in Validation.Statuses
    ensures forall s :: s in StatusProgress ==> 0 <= StatusProgress[s] <= 100
  {
  }

  // ---------------------------------------------------------------------------
  // The new-application form

  datatype Form = Form(company: string, position: string, status: string, progress: Option<int>)

  /** The `name` of the form's two text inputs. */
  datatype Field = Company | Position

  /** The progress the form holds is the table's value for its status. */
  predicate Consistent(form: Form) {
    form.progress == ProgressOf(form.status)
  }

  /** The form's state on mount, and again after a successful submit. */
  const InitialForm: Form := Form("", "", "applied", ProgressOf("applied"))

  lemma InitialFormIsEmptyApplied()
    ensures InitialForm == Form("", "", "applied", Some(10))
    ensures Consistent(InitialForm)
  {
  }

  /** `handleInputChange`: only the input's own field takes the typed value. */
  function WithInput(form: Form, field: Field, value: string): (f: Form)
    ensures f.status == form.status && f.progress == form.progress
    ensures f.company == (if field == Company then value else form.company)
    ensures f.position == (if field == Position then value else form.position)
    ensures Consistent(form) ==> Consistent(f)
  {
    match field
    case Company => form.(company := value)
    case Position => form.(position := value)
  }

  /** `handleStatusChange`: the chosen status and its table percentage. */
  function WithStatus(form: Form, value: string): (f: Form)
    ensures f.company == form.company && f.position == form.position
    ensures f.status == value
    ensures Consistent(f)
    ensures value in StatusKeys ==> f.progress == Some(StatusProgress[value])
  {
    form.(status := value, progress := ProgressOf(value))
  }

  // ---------------------------------------------------------------------------
  // Request bodies

  /** `applicationData` as `JSON.stringify` sends it: the status lowered, its
      percentage looked up afresh, and an `undefined` progress left out. */
  function Payload(form: Form): (body: Body)
    ensures body.Keys >= {"company", "position", "status"}
    ensures body["company"] == Str(form.company) && body["position"] == Str(form.position)
    ensures body["status"] == Str(Lower(form.status))
    ensures "progress" in body <==> Lower(form.status) in StatusKeys || Lower(form.status) == ProtoKey
    ensures Lower(form.status) in StatusKeys ==> body["progress"] == Int(StatusProgress[Lower(form.status)])
    ensures Lower(form.status) == ProtoKey ==> body["progress"] == Other
  {
    var status := Lower(form.status);
    var fields := map["company" := Str(form.company), "position" := Str(form.position), "status" := Str(status)];
    match ProgressField(status)
    case Some(p) => fields["progress" := p]
    case None => fields
  }

  /** The body `handleStatusUpdate` sends: `{status, progress: STATUS_PROGRESS[status]}`. */
  function StatusUpdateBody(newStatus: string): (body: Body)
    ensures "status" in body && body["status"] == Str(newStatus)
    ensures "progress" in body <==> newStatus in StatusKeys || newStatus == ProtoKey
    ensures newStatus in StatusKeys ==> body["progress"] == Int(StatusProgress[newStatus])
    ensures newStatus == ProtoKey ==> body["progress"] == Other
  {
    var fields := map["status" := Str(newStatus)];
    match ProgressField(newStatus)
    case Some(p) => fields["progress" := p]
    case None => fields
  }

  /** A form whose lowered status is a table key gives a payload the backend
      accepts, and the record it creates satisfies the store's invariant. */
  lemma PayloadAccepted(form: Form)
    requires Lower(form.status) in StatusKeys
    ensures Validation.Validate(Payload(form)) == Validation.Accepted
    ensures var body := Payload(form);
            Store.WellFormed(Store.Record(body["company"], body["position"], body["status"].s, body["progress"]))
  {
    var body := Payload(form);
    var status := Lower(form.status);
    LowerIsLowerCase(form.status);
    assert StatusKeys == Validation.Statuses;
    assert ProgressOf(status).Some? && body["progress"] == Int(ProgressOf(status).value);
    assert Validation.HasRequiredFields(body);
    assert Validation.StatusAllowed(body["status"]);
    assert Validation.ProgressAllowed(body["progress"]);
  }

  /** Any other status is rejected. Mostly the progress is `undefined`, so the
      payload lacks a required field and the backend rejects it before looking
      at the status; `__proto__` sends `{}` and fails the status check. */
  lemma PayloadRejected(form: Form)
    requires Lower(form.status) !in StatusKeys
    ensures Lower(form.status) != ProtoKey ==>
              Validation.Validate(Payload(form)) == Validation.Rejected(Validation.MissingFieldsMessage)
    ensures Lower(form.status) == ProtoKey ==>
              Validation.Validate(Payload(form)) == Validation.Rejected(Validation.StatusMessage)
  {
    var status := Lower(form.status);
    if status == ProtoKey {
      assert Validation.HasRequiredFields(Payload(form));
      assert status !in Validation.Statuses;
      LowerIsLowerCase(form.status);
    } else {
      assert "progress" !in Payload(form);
    }
  }

  /** A status picked from a row's dropdown gives a body that PATCH accepts,
      and the record then holds that status and its table percentage. */
  lemma StatusUpdateBodyAccepted(newStatus: string)
    requires newStatus in StatusKeys
    ensures var body := StatusUpdateBody(newStatus);
            && Validation.StatusAllowed(body["status"])
            && Lower(body["status"].s) == newStatus
            && "progress" in body && body["progress"] == Int(StatusProgress[newStatus])
  {
    StatusTablesAgree();
    Validation.StatusesAreLowerCase(newStatus);
  }

  // ---------------------------------------------------------------------------
  // Labels shown to the user

  /** One row of a dropdown: the status and the percentage its label shows. */
  datatype MenuItem = MenuItem(status: string, percent: Option<int>)

  /** The per-row dropdown: one item per key of the table, labelled with
      `STATUS_PROGRESS[status.toLowerCase()]`. */
  function DropdownItems(): (items: seq<MenuItem>)
    ensures |items| == |StatusKeys|
    ensures forall i :: 0 <= i < |items| ==> items[i].status == StatusKeys[i]
  {
    seq(|StatusKeys|, i requires 0 <= i < |StatusKeys| => MenuItem(StatusKeys[i], ProgressOf(Lower(StatusKeys[i]))))
  }

  /** The dropdown offers exactly the table's statuses, in the table's order,
      each labelled with its own percentage. */
  lemma DropdownMatchesTable()
    ensures forall s :: s in StatusProgress <==> exists i :: 0 <= i < |DropdownItems()| && DropdownItems()[i].status == s
    ensures forall i :: 0 <= i < |DropdownItems()| ==>
              DropdownItems()[i].percent == Some(StatusProgress[DropdownItems()[i].status])
  {
    var items := DropdownItems();
    StatusTablesAgree();
    forall i | 0 <= i < |items| ensures items[i].percent == Some(StatusProgress[items[i].status]) {
      Validation.StatusesAreLowerCase(StatusKeys[i]);
    }
    forall s | s in StatusProgress ensures exists i :: 0 <= i < |items| && items[i].status == s {
      var i :| 0 <= i < |StatusKeys| && StatusKeys[i] == s;
      assert items[i].status == s;
    }
  }

  /** One option of the form's status select, with the percentage written in
      its label text ("Applied (10%)"). */
  datatype SelectOption = SelectOption(value: string, caption: string, percent: int)

  const FormOptions: seq<SelectOption> := [
    SelectOption("applied", "Applied", 10),
    SelectOption("oa sent", "OA Sent", 40),
    SelectOption("oa received", "OA Received", 25),
    SelectOption("interviewed", "Interviewed", 60),
    SelectOption("offered", "Offered", 85),
    SelectOption("accepted", "Accepted", 100),
    SelectOption("rejected", "Rejected", 0)
  ]

  /** The percentages written in the select's labels are the table's, and the
      select offers the table's statuses in the table's order. */
  lemma FormOptionsMatchTable()
    ensures |FormOptions| == |StatusKeys|
    ensures forall i :: 0 <= i < |FormOptions| ==> FormOptions[i].value == StatusKeys[i]
    ensures forall option :: option in FormOptions ==> ProgressOf(option.value) == Some(option.percent)
  {
  }

  // ---------------------------------------------------------------------------
  // The component's state

  /** An application as the list endpoint returns it (timestamps left out). */
  datatype Row = Row(id: int, company: Value, position: Value, status: string, progress: Value)

  /** The request a handler sends. */
  datatype Request = GetAll | Post(body: Body) | PatchOne(id: int, body: Body) | DeleteOne(id: int)

  /** How the list request ended: the decoded list, a response that was not
      ok, or an exception (network failure, undecodable body) with its message. */
  datatype Fetched = Loaded(rows: seq<Row>) | LoadRefused | LoadThrew(message: string)

  /** How a create, status update or delete request ended: ok, not ok with the
      `error` field of the response body if it has one, or an exception. */
  datatype Answer = Done | Refused(errorField: Option<string>) | Failed(message: string)

  const FetchFailedMessage: string := "Failed to fetch applications"
  const CreateFailedMessage: string := "Failed to create application"
  const UpdateFailedMessage: string := "Failed to update application status"
  const DeleteFailedMessage: string := "Failed to delete application"

  /** The message a failed request leaves in the error slot: the body's
      `error` when it is a non-empty string (JavaScript's `||`), else the
      handler's own message; an exception's own message. */
  function FailureMessage(answer: Answer, fallback: string): (m: string)
    requires !answer.Done?
    ensures answer.Failed? ==> m == answer.message
    ensures answer.Refused? && answer.errorField.Some? && answer.errorField.value != "" ==>
              m == answer.errorField.value
    ensures answer.Refused? && (answer.errorField.None? || answer.errorField.value == "") ==>
              m == fallback
  {
    match answer
    case Refused(Some(e)) => if e != "" then e else fallback
    case Refused(None) => fallback
    case Failed(message) => message
  }

  class Tracker {
    var applications: seq<Row>
    var error: string
    var form: Form

    ghost predicate Valid()
      reads this
    {
      Consistent(form)
    }

    constructor ()
      ensures Valid()
      ensures applications == [] && error == "" && form == InitialForm
    {
      applications := [];
      error := "";
      form := InitialForm;
    }

    /** `fetchApplications`: a successful list replaces the applications
        wholesale; a failure only sets the error message. */
    method FetchApplications(outcome: Fetched) returns (request: Request)
      requires Valid()
      modifies this
      ensures Valid() && request == GetAll
      ensures form == old(form)
      ensures outcome.Loaded? ==> applications == outcome.rows && error == old(error)
      ensures outcome.LoadRefused? ==> applications == old(applications) && error == FetchFailedMessage
      ensures outcome.LoadThrew? ==> applications == old(applications) && error == outcome.message
    {
      request := GetAll;
      match outcome
      case Loaded(rows) => applications := rows;
      case LoadRefused => error := FetchFailedMessage;
      case LoadThrew(message) => error := message;
    }

    /** `handleInputChange` for the input named `field`. */
    method HandleInputChange(field: Field, value: string)
      requires Valid()
      modifies this
      ensures Valid()
      ensures form == WithInput(old(form), field, value)
      ensures applications == old(applications) && error == old(error)
    {
      form := WithInput(form, field, value);
    }

    /** `handleStatusChange` for the value chosen in the form's select. */
    method HandleStatusChange(value: string)
      requires Valid()
      modifies this
      ensures Valid()
      ensures form == WithStatus(old(form), value)
      ensures applications == old(applications) && error == old(error)
    {
      form := WithStatus(form, value);
    }

    /** `handleSubmit`: post the payload; on success reset the form and
        refetch, otherwise record the failure and keep what was typed. */
    method HandleSubmit(answer: Answer, refetch: Fetched) returns (request: Request)
      requires Valid()
      modifies this
      ensures Valid()
      ensures request == Post(Payload(old(form)))
      ensures answer.Done? ==> form == InitialForm
      ensures answer.Done? && refetch.Loaded? ==> applications == refetch.rows && error == old(error)
      ensures answer.Done? && !refetch.Loaded? ==> applications == old(applications)
      ensures answer.Done? && refetch.LoadRefused? ==> error == FetchFailedMessage
      ensures answer.Done? && refetch.LoadThrew? ==> error == refetch.message
      ensures !answer.Done? ==>
                form == old(form) && applications == old(applications) &&
                error == FailureMessage(answer, CreateFailedMessage)
    {
      request := Post(Payload(form));
      if answer.Done? {
        form := InitialForm;
        var _ := FetchApplications(refetch);
      } else {
        error := FailureMessage(answer, CreateFailedMessage);
      }
    }

    /** `handleStatusUpdate(id, newStatus)`: patch the status and its table
        percentage; on success refetch, otherwise record the failure. */
    method HandleStatusUpdate(id: int, newStatus: string, answer: Answer, refetch: Fetched)
      returns (request: Request)
      requires Valid()
      modifies this
      ensures Valid() && form == old(form)
      ensures request == PatchOne(id, StatusUpdateBody(newStatus))
      ensures answer.Done? && refetch.Loaded? ==> applications == refetch.rows && error == old(error)
      ensures answer.Done? && !refetch.Loaded? ==> applications == old(applications)
      ensures answer.Done? && refetch.LoadRefused? ==> error == FetchFailedMessage
      ensures answer.Done? && refetch.LoadThrew? ==> error == refetch.message
      ensures !answer.Done? ==>
                applications == old(applications) && error == FailureMessage(answer, UpdateFailedMessage)
    {
      request := PatchOne(id, StatusUpdateBody(newStatus));
      if answer.Done? {
        var _ := FetchApplications(refetch);
      } else {
        error := FailureMessage(answer, UpdateFailedMessage);
      }
    }

    /** `handleDelete(id)`: a response that is not ok gives the fixed message,
        whatever its body says. */
    method HandleDelete(id: int, answer: Answer, refetch: Fetched) returns (request: Request)
      requires Valid()
      modifies this
      ensures Valid() && form == old(form)
      ensures request == DeleteOne(id)
      ensures answer.Done? && refetch.Loaded? ==> applications == refetch.rows && error == old(error)
      ensures answer.Done? && !refetch.Loaded? ==> applications == old(applications)
      ensures answer.Done? && refetch.LoadRefused? ==> error == FetchFailedMessage
      ensures answer.Done? && refetch.LoadThrew? ==> error == refetch.message
      ensures answer.Refused? ==> applications == old(applications) && error == DeleteFailedMessage
      ensures answer.Failed? ==> applications == old(applications) && error == answer.message
    {
      request := DeleteOne(id);
      match answer
      case Done => var _ := FetchApplications(refetch);
      case Refused(_) => error := DeleteFailedMessage;
      case Failed(message) => error := message;
    }
  }
}
