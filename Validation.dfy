/**
 * The backend's check of a request body before it creates or replaces an
 * application (`validate_application_data` in backend/app.py). The checks run
 * in a fixed order and the first one that fails decides the message.
 */
module Validation {
  import opened Json
  import opened Text

  const RequiredFields: seq<string> := ["company", "position", "status", "progress"]

  /** The statuses the backend accepts, in the order its messages list them. */
  const Statuses: seq<string> :=
    ["applied", "oa sent", "oa received", "interviewed", "offered", "accepted", "rejected"]

  const MissingFieldsMessage: string := "Missing required fields"
  const StatusMessage: string := "Status must be one of: " + Join(Statuses, ", ")
  const ProgressRangeMessage: string := "Progress must be between 0 and 100"
  const ProgressNumberMessage: string := "Progress must be a valid number between 0 and 100"

  /** Python's `(True, None)` and `(False, message)`. */
  datatype Verdict = Accepted | Rejected(message: string)

  /** `sep.join(xs)` in Python. */
  function Join(xs: seq<string>, sep: string): string
  {
    if |xs| == 0 then "" else if |xs| == 1 then xs[0] else xs[0] + sep + Join(xs[1..], sep)
  }

  /** Python's `int(v)` on a decoded JSON value: integers convert to themselves,
      strings are parsed, everything else raises (`None`). */
  function ToInt(v: Value): (r: Option<int>)
    ensures v.Int? ==> r == Some(v.i)
    ensures v.Str? ==> r == ParseInt(v.s)
    ensures r.Some? ==> v.Int? || v.Str?
  {
    match v
    case Int(i) => Some(i)
    case Str(s) => ParseInt(s)
    case _ => None
  }

  predicate HasRequiredFields(data: Body) {
    forall f :: f in RequiredFields ==> f in data
  }

  /** A status value the backend accepts: text whose lower-case form is listed. */
  predicate StatusAllowed(v: Value) {
    v.Str? && Lower(v.s) in Statuses
  }

  /** A progress value that converts to an integer between 0 and 100. */
  predicate ProgressAllowed(v: Value) {
    ToInt(v).Some? && 0 <= ToInt(v).value <= 100
  }

  /** `validate_application_data(data)`. */
  function Validate(data: Body): (r: Verdict)
    // the presence check comes first and decides alone
    ensures !HasRequiredFields(data) ==> r == Rejected(MissingFieldsMessage)
    // then the status check, whatever the progress is
    ensures HasRequiredFields(data) && !StatusAllowed(data["status"]) ==> r == Rejected(StatusMessage)
    // then progress: unconvertible and out of range have their own messages
    ensures HasRequiredFields(data) && StatusAllowed(data["status"]) ==>
              (ToInt(data["progress"]).None? ==> r == Rejected(ProgressNumberMessage))
    ensures HasRequiredFields(data) && StatusAllowed(data["status"]) ==>
              (ToInt(data["progress"]).Some? && !(0 <= ToInt(data["progress"]).value <= 100)
               ==> r == Rejected(ProgressRangeMessage))
    // accepted exactly when every check passes
    ensures r == Accepted <==>
              HasRequiredFields(data) && StatusAllowed(data["status"]) && ProgressAllowed(data["progress"])
  {
    if !(forall f :: f in RequiredFields ==> f in data) then
      Rejected(MissingFieldsMessage)
    else if !data["status"].Str? then
      Rejected(StatusMessage)
    else if Lower(data["status"].s) !in Statuses then
      Rejected(StatusMessage)
    else
      match ToInt(data["progress"])
      case None => Rejected(ProgressNumberMessage)
      case Some(progress) =>
        if !(0 <= progress <= 100) then Rejected(ProgressRangeMessage) else Accepted
  }

  /** The four rejection messages are different texts, so a client can tell
      the failed check from the message alone. */
  lemma MessagesDistinct()
    ensures MissingFieldsMessage != StatusMessage
    ensures MissingFieldsMessage != ProgressRangeMessage
    ensures MissingFieldsMessage != ProgressNumberMessage
    ensures StatusMessage != ProgressRangeMessage
    ensures StatusMessage != ProgressNumberMessage
    ensures ProgressRangeMessage != ProgressNumberMessage
  {
  }

  /** Every listed status is its own lower-case form, so a listed status
      passes the check exactly as written. */
  lemma StatusesAreLowerCase(s: string)
    requires s in Statuses
    ensures Lower(s) == s
  {
    assert IsLowerCase(s);
    LowerIsLowerCase(s);
  }

  /** Replacing the status by its lower-case form, as PUT and PATCH store it,
      does not change the verdict. */
  lemma ValidateIgnoresStatusCase(data: Body)
    requires "status" in data && data["status"].Str?
    ensures Validate(data["status" := Str(Lower(data["status"].s))]) == Validate(data)
  {
    LowerIsLowerCase(data["status"].s);
    var lowered := data["status" := Str(Lower(data["status"].s))];
    assert HasRequiredFields(lowered) == HasRequiredFields(data);
  }

  /** Only the four required fields matter: extra fields in the body never
      change the verdict. */
  lemma ValidateReadsRequiredFieldsOnly(data: Body, other: Body)
    requires forall f :: f in RequiredFields ==> (f in data <==> f in other)
    requires forall f :: f in RequiredFields && f in data ==> data[f] == other[f]
    ensures Validate(data) == Validate(other)
  {
    assert HasRequiredFields(data) == HasRequiredFields(other);
    if HasRequiredFields(data) {
      assert data["status"] == other["status"] && data["progress"] == other["progress"];
    }
  }
}
