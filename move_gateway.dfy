/**
  The inbound motor-vector check of the /robot/move handler.

  A request body is a JSON object, modelled as a map from field names to JSON
  values.  The handler first demands the four fields fl, fr, bl, br, then checks
  each in that order (integer; within [-255, 255] unless 0; outside the deadband
  unless 0) and answers 400 with the first failure's message.  Only a request
  that passes every check reaches the forwarding step, which sends the body
  unchanged to the robot.
*/
module MoveGateway {
  import opened MotorControl

  datatype Option<T> = None | Some(value: T)

  /** A JSON value as far as the handler distinguishes it. */
  datatype JsonValue = JInt(value: int) | JNonInteger

  type Request = map<string, JsonValue>

  /** What the handler does with a request: reject it, or forward the body. */
  datatype MoveOutcome = Rejected(status: int, error: string) | Forwarded(body: Request)

  const BAD_REQUEST: int := 400

  const RequiredFields: seq<string> := ["fl", "fr", "bl", "br"]

  const MissingFieldsError: string := "Missing required fields: fl, fr, bl, br"

  /** The per-field messages are the field name followed by one of these. */
  const NotIntegerSuffix: string := " must be an integer"
  const OutOfRangeSuffix: string := " must be between -255 and 255"
  const DeadbandSuffix: string := " must be 0 or between -255 and -230, or 230 and 255"

  predicate HasRequiredFields(data: Request)
  {
    forall i :: 0 <= i < |RequiredFields| ==> RequiredFields[i] in data
  }

  /** The checks of one field, in the handler's order; None when it passes. */
  function FieldError(field: string, v: JsonValue): (e: Option<string>)
    ensures e.None? <==> v.JInt? && ValidSpeed(v.value)
  {
    match v
    case JNonInteger => Some(field + NotIntegerSuffix)
    case JInt(speed) =>
      if speed != 0 && (speed < -255 || speed > 255) then
        Some(field + OutOfRangeSuffix)
      else if speed != 0 && Abs(speed) < 230 then
        Some(field + DeadbandSuffix)
      else None
  }

  /** The error of the first failing field, in order; None exactly when
      every field passes. */
  function FirstFieldError(data: Request, fields: seq<string>): (e: Option<string>)
    requires forall i :: 0 <= i < |fields| ==> fields[i] in data
    ensures e.None? <==> forall i :: 0 <= i < |fields| ==> AcceptedValue(data, fields[i])
    decreases |fields|
  {
    if fields == [] then None
    else
      var e := FieldError(fields[0], data[fields[0]]);
      if e.Some? then e else FirstFieldError(data, fields[1..])
  }

  /** The validation of robot_move followed by the forwarding step.  A missing
      field is reported before any field is checked, every rejection is a 400,
      and a forwarded request carries the body unchanged. */
  function RobotMove(data: Request): (r: MoveOutcome)
    ensures !HasRequiredFields(data) ==> r == Rejected(BAD_REQUEST, MissingFieldsError)
    ensures r.Rejected? ==> r.status == BAD_REQUEST
    ensures r.Forwarded? ==> r.body == data && HasRequiredFields(data)
  {
    if !HasRequiredFields(data) then Rejected(BAD_REQUEST, MissingFieldsError)
    else
      match FirstFieldError(data, RequiredFields)
      case Some(e) => Rejected(BAD_REQUEST, e)
      case None => Forwarded(data)
  }

  /** A field value the handler accepts. */
  predicate AcceptedValue(data: Request, field: string)
  {
    field in data && data[field].JInt? && ValidSpeed(data[field].value)
  }

  /** The request a motor vector is sent as. */
  function ToRequest(m: MotorVector): (data: Request)
    ensures HasRequiredFields(data)
  {
    map["fl" := JInt(m.fl), "fr" := JInt(m.fr), "bl" := JInt(m.bl), "br" := JInt(m.br)]
  }

  // ---------------------------------------------------------------------------
  // Lemmas
  // ---------------------------------------------------------------------------

  /** A reported error is the error of some field all of whose predecessors
      pass: the checks stop at the first failing field. */
  lemma {:induction false} FirstFieldErrorSpec(data: Request, fields: seq<string>)
    requires forall i :: 0 <= i < |fields| ==> fields[i] in data
    ensures FirstFieldError(data, fields).Some? ==>
            exists k :: 0 <= k < |fields| &&
              FieldError(fields[k], data[fields[k]]) == FirstFieldError(data, fields) &&
              forall j :: 0 <= j < k ==> AcceptedValue(data, fields[j])
    decreases |fields|
  {
    if fields != [] {
      var rest := fields[1..];
      FirstFieldErrorSpec(data, rest);
      if FieldError(fields[0], data[fields[0]]).None? {
        assert forall i :: 1 <= i < |fields| ==> fields[i] == rest[i - 1];
        if FirstFieldError(data, rest).Some? {
          var k :| 0 <= k < |rest| &&
                   FieldError(rest[k], data[rest[k]]) == FirstFieldError(data, rest) &&
                   forall j :: 0 <= j < k ==> AcceptedValue(data, rest[j]);
          assert FieldError(fields[k + 1], data[fields[k + 1]]) == FirstFieldError(data, fields);
          forall j | 0 <= j < k + 1
            ensures AcceptedValue(data, fields[j])
          {
            if j > 0 {
              assert fields[j] == rest[j - 1];
            }
          }
        }
      } else {
        assert !AcceptedValue(data, fields[0]);
        assert FieldError(fields[0], data[fields[0]]) == FirstFieldError(data, fields);
      }
    }
  }

  /** A request lacking any of fl, fr, bl, br is rejected with 400. */
  lemma MissingFieldRejected(data: Request, field: string)
    requires field in RequiredFields && field !in data
    ensures RobotMove(data) == Rejected(BAD_REQUEST, MissingFieldsError)
  {
  }

  /** A non-integer field value is rejected with 400. */
  lemma NonIntegerRejected(data: Request, field: string)
    requires field in RequiredFields && field in data && data[field] == JNonInteger
    ensures RobotMove(data).Rejected? && RobotMove(data).status == BAD_REQUEST
  {
    if HasRequiredFields(data) {
      FirstFieldErrorSpec(data, RequiredFields);
      var i :| 0 <= i < |RequiredFields| && RequiredFields[i] == field;
      assert !AcceptedValue(data, RequiredFields[i]);
    }
  }

  /** When the four fields are present, a request is forwarded exactly when
      every one of them is an integer that is 0 or has magnitude in [230, 255];
      otherwise it is rejected with 400. */
  lemma AcceptedIff(data: Request)
    ensures RobotMove(data).Forwarded? <==>
            AcceptedValue(data, "fl") && AcceptedValue(data, "fr") &&
            AcceptedValue(data, "bl") && AcceptedValue(data, "br")
    ensures RobotMove(data).Forwarded? ==> RobotMove(data).body == data
    ensures RobotMove(data).Rejected? ==> RobotMove(data).status == BAD_REQUEST
  {
    if HasRequiredFields(data) {
      FirstFieldErrorSpec(data, RequiredFields);
      assert RequiredFields[0] == "fl" && RequiredFields[1] == "fr";
      assert RequiredFields[2] == "bl" && RequiredFields[3] == "br";
    }
  }

  /** The checks run field by field: with fl = 100 and fr not an integer,
      the deadband message for fl is the one reported. */
  lemma FirstFailingFieldReported()
    ensures RobotMove(map["fl" := JInt(100), "fr" := JNonInteger, "bl" := JInt(0), "br" := JInt(300)])
            == Rejected(BAD_REQUEST, "fl" + DeadbandSuffix)
  {
    var data := map["fl" := JInt(100), "fr" := JNonInteger, "bl" := JInt(0), "br" := JInt(300)];
    assert HasRequiredFields(data);
    assert FirstFieldError(data, RequiredFields) == FieldError("fl", data["fl"]);
  }

  /** Every in-band motor vector passes the handler's validation unchanged. */
  lemma ValidVectorForwarded(m: MotorVector)
    requires ValidVector(m)
    ensures RobotMove(ToRequest(m)) == Forwarded(ToRequest(m))
  {
    AcceptedIff(ToRequest(m));
  }

  /** The cross-component property: every vector the controller computes,
      in any state, would be accepted by the /robot/move handler. */
  lemma ControllerOutputAccepted(s: State, c: Command)
    ensures RobotMove(ToRequest(MotorsOf(s))) == Forwarded(ToRequest(MotorsOf(s)))
    ensures RobotMove(ToRequest(Output(s, c))) == Forwarded(ToRequest(Output(s, c)))
  {
    ValidVectorForwarded(MotorsOf(s));
    ValidVectorForwarded(Output(s, c));
  }

  /** Along any sequence of commands, every returned vector would be forwarded. */
  lemma TraceAccepted(s: State, cmds: seq<Command>, i: nat)
    requires i < |cmds|
    ensures RobotMove(ToRequest(Trace(s, cmds)[i])).Forwarded?
  {
    TraceInBand(s, cmds);
    ValidVectorForwarded(Trace(s, cmds)[i]);
  }
}
