/**
 * exports.handler: the admission of a webhook delivery (content type, then
 * signature, then event classification) and, for an admitted delivery, the
 * awaited AWS calls that start the instance, open a session and send the
 * rendered shell command.
 *
 * `Handle` is the whole decision as a function of the configuration, the
 * foreign primitives, the way each AWS call settles and the event; it
 * returns the response, the AWS calls made in order and the event object as
 * the handler leaves it. `LambdaEvent.Invoke` is the same handler written
 * step by step over an event object whose body it replaces in place.
 */
module Handler {
  import opened Js
  import opened Events
  import opened Signature
  import opened Render

  // ---------------------------------------------------------------------
  // Configuration, read from the environment once at load time
  // ---------------------------------------------------------------------

  datatype Config = Config(
    secret: Option<string>,        // WEBHOOK_SECRET
    region: Option<string>,        // REGION
    instanceId: Option<string>,    // INSTANCE_ID
    maxWaitTime: int,              // MAX_WAIT_TIME, in seconds
    shouldShutdownInstance: bool)  // SHOULD_SHUTDOWN_INSTANCE

  const DefaultMaxWaitTime := 500

  /** The module-level constants of the handler file. `parseInt` is the
      foreign integer parser. */
  function LoadConfig(env: map<string, string>, parseInt: string -> int): (cfg: Config)
    ensures cfg.secret.None? <==> "WEBHOOK_SECRET" !in env
    ensures cfg.secret.Some? ==> cfg.secret.value == env["WEBHOOK_SECRET"]
    ensures cfg.region == Lookup(env, "REGION") && cfg.instanceId == Lookup(env, "INSTANCE_ID")
    ensures Lookup(env, "MAX_WAIT_TIME") in {None, Some("")} ==> cfg.maxWaitTime == DefaultMaxWaitTime
    ensures "MAX_WAIT_TIME" in env && env["MAX_WAIT_TIME"] != "" ==> cfg.maxWaitTime == parseInt(env["MAX_WAIT_TIME"])
    ensures cfg.shouldShutdownInstance <==> Lookup(env, "SHOULD_SHUTDOWN_INSTANCE") == Some("true")
  {
    var maxWait :=
      match Lookup(env, "MAX_WAIT_TIME")
      case Some(text) => if text != "" then parseInt(text) else DefaultMaxWaitTime
      case None => DefaultMaxWaitTime;
    Config(Lookup(env, "WEBHOOK_SECRET"), Lookup(env, "REGION"), Lookup(env, "INSTANCE_ID"),
           maxWait, Lookup(env, "SHOULD_SHUTDOWN_INSTANCE") == Some("true"))
  }

  // ---------------------------------------------------------------------
  // What the handler depends on but does not compute
  // ---------------------------------------------------------------------

  /** Foreign functions. */
  datatype Primitives = Primitives(
    hmacHex: (string, string) -> string,  // lower-case hex HMAC-SHA256 of a body under a secret
    parse: string -> Option<Json>,         // JSON.parse; None when it throws
    stringify: Event -> string)            // JSON.stringify of the whole event object

  /** How each awaited AWS call settles, and the clock. */
  datatype Aws = Aws(
    instanceOk: Outcome<()>,        // waitForInstanceOk: start the instance, wait for status ok
    startSession: Outcome<string>,  // StartSession, giving the session id
    sendCommand: Outcome<string>,   // SendCommand, giving the command id
    now: string)                    // new Date().toISOString()

  /** An AWS call the handler makes, with the parameters it passes. */
  datatype Call =
    | StartInstanceAndWait(region: Option<string>, instanceId: Option<string>, delay: int, maxWaitTime: int)
    | StartSession(target: Option<string>)
    | SendCommand(documentName: string, workingDirectory: seq<string>, commands: seq<string>,
                  targetKey: string, targetValues: seq<Option<string>>)
    | TerminateSession(sessionId: string, target: Option<string>)

  /** What the handler's promise settles to. */
  datatype Response =
    | StatusCode(statusCode: int, body: string)       // {statusCode, body}
    | Status(status: int, body: string)               // {status, body}: the no-op reply's own key
    | StatusCodeError(statusCode: int, error: Error)  // {statusCode, body: err}
    | NoResponse                                      // resolves to undefined
    | Rejected(error: Error)                          // the promise rejects

  datatype Run = Run(response: Response, calls: seq<Call>, event: Event)

  const ContentType := "application/json"
  const TargetRef := "refs/heads/metron"
  const BadContentType := "bad content-type, expected json"
  const BadSignature := "bad signature"
  const NoOpPrefix := "no-op event for ref "
  const PollDelay := 5
  const DocumentName := "AWS-RunShellScript"
  const WorkingDirectory := "/home/ec2-user"

  // ---------------------------------------------------------------------
  // The handler
  // ---------------------------------------------------------------------

  /** The calls follow the pipeline's order (instance, session, command,
      termination), each at most once; once AWS is involved the only
      replies are a 500 or none at all, and none means every call was made. */
  predicate PipelineRun(run: Run)
  {
    && |run.calls| <= 4
    && (|run.calls| > 0 ==> run.calls[0].StartInstanceAndWait?)
    && (|run.calls| > 1 ==> run.calls[1].StartSession?)
    && (|run.calls| > 2 ==> run.calls[2].SendCommand?)
    && (|run.calls| > 3 ==> run.calls[3].TerminateSession?)
    && (run.calls != [] ==> run.response == NoResponse || (run.response.StatusCodeError? && run.response.statusCode == 500))
    && (run.response == NoResponse <==> |run.calls| == 4)
  }

  function Handle(cfg: Config, lib: Primitives, aws: Aws, e: Event): (run: Run)
    ensures PipelineRun(run)
    // the event keeps its headers; its body is untouched or replaced by the parse of the raw text
    ensures run.event.headers == e.headers && run.event.rest == e.rest
    ensures run.event == e || (e.body.Raw? && lib.parse(e.body.text).Some? &&
                               run.event.body == Parsed(lib.parse(e.body.text).value))
  {
    if Lookup(e.headers, "content-type") != Some(ContentType) then
      Run(StatusCode(401, BadContentType), [], e)
    else
      match VerifySignature(lib.hmacHex, cfg.secret, e.body, Lookup(e.headers, "x-hub-signature-256"))
      case Threw(err) => Run(Rejected(err), [], e)
      case Done(ok) =>
        if !ok then Run(StatusCode(402, BadSignature), [], e)
        else
          match lib.parse(e.body.text)
          case None => Run(Rejected(JsonSyntaxError), [], e)
          case Some(payload) => Classify(cfg, lib, aws, e.(body := Parsed(payload)), payload)
  }

  /** Lines after the parse: act on a ping, or on a push to the target
      branch; reply that anything else is a no-op. */
  function Classify(cfg: Config, lib: Primitives, aws: Aws, e: Event, payload: Json): (run: Run)
    ensures PipelineRun(run) && run.event == e
  {
    var eventType := Lookup(e.headers, "x-github-event");
    if eventType == Some("ping") then Dispatch(cfg, lib, aws, e, payload, "ping")
    else if eventType == Some("push") then
      match Get(Defined(payload), "ref")
      case Threw(err) => Run(Rejected(err), [], e)
      case Done(ref) =>
        if ref == Defined(Str(TargetRef)) then Dispatch(cfg, lib, aws, e, payload, "push")
        else NoOp(e, payload)
    else NoOp(e, payload)
  }

  /** `{status: 204, body: "no-op event for ref " + event.body.ref}` */
  function NoOp(e: Event, payload: Json): (run: Run)
    ensures run.calls == [] && run.event == e && run.response != NoResponse
  {
    match Get(Defined(payload), "ref")
    case Threw(err) => Run(Rejected(err), [], e)
    case Done(ref) =>
      match Text(ref)
      case Threw(err) => Run(Rejected(err), [], e)
      case Done(refText) => Run(Status(204, NoOpPrefix + refText), [], e)
  }

  /** `event.body.repository.name`: the first read throws on a null payload,
      the second on a missing or null `repository`. */
  function RepositoryName(payload: Json): (r: Outcome<Value>)
    ensures r.Threw? <==> !RepositoryReadable(payload)
    ensures r.Threw? ==> r.error == NullishRead(if payload == Null then "repository" else "name")
    ensures r.Done? ==> r.value == NameField(payload)
  {
    match Get(Defined(payload), "repository")
    case Threw(err) => Threw(err)
    case Done(repository) => Get(repository, "name")
  }

  /** The try block: every failure is caught and becomes a 500; success
      falls off the end of the handler. */
  function Dispatch(cfg: Config, lib: Primitives, aws: Aws, e: Event, payload: Json, eventType: string): (run: Run)
    ensures PipelineRun(run) && run.calls != [] && run.event == e
  {
    var wait := StartInstanceAndWait(cfg.region, cfg.instanceId, PollDelay, cfg.maxWaitTime);
    match aws.instanceOk
    case Threw(err) => Run(StatusCodeError(500, err), [wait], e)
    case Done(_) =>
      var open := StartSession(cfg.instanceId);
      match aws.startSession
      case Threw(err) => Run(StatusCodeError(500, err), [wait, open], e)
      case Done(sessionId) =>
        match RepositoryName(payload)
        case Threw(err) => Run(StatusCodeError(500, err), [wait, open], e)
        case Done(name) =>
          match Text(name)
          case Threw(err) => Run(StatusCodeError(500, err), [wait, open], e)
          case Done(nameText) =>
            var fileName := FileName(Sanitise(aws.now), nameText, eventType);
            var cmd := RenderCommand(lib.stringify(e), fileName, cfg.shouldShutdownInstance);
            SendThenClose(cfg, aws, e, [wait, open], cmd, sessionId)
  }

  /** SendCommand, then the termination of the session (sent, not awaited). */
  function SendThenClose(cfg: Config, aws: Aws, e: Event, before: seq<Call>, cmd: string, sessionId: string): (run: Run)
    ensures run.event == e
    ensures aws.sendCommand.Done? ==> run.response == NoResponse
    ensures aws.sendCommand.Threw? ==> run.response == StatusCodeError(500, aws.sendCommand.error)
    ensures run.calls == before + [SendCommand(DocumentName, [WorkingDirectory], [cmd], "InstanceIds", [cfg.instanceId])] +
                         (if aws.sendCommand.Done? then [TerminateSession(sessionId, cfg.instanceId)] else [])
  {
    var send := SendCommand(DocumentName, [WorkingDirectory], [cmd], "InstanceIds", [cfg.instanceId]);
    match aws.sendCommand
    case Threw(err) => Run(StatusCodeError(500, err), before + [send], e)
    case Done(_) => Run(NoResponse, before + [send, TerminateSession(sessionId, cfg.instanceId)], e)
  }

  // ---------------------------------------------------------------------
  // Reference definitions the handler is measured against
  // ---------------------------------------------------------------------

  /** The delivery passed both checks: JSON content type, then a signature
      that equals the expected one. */
  predicate Verified(cfg: Config, lib: Primitives, e: Event)
  {
    && Lookup(e.headers, "content-type") == Some(ContentType)
    && cfg.secret.Some?
    && e.body.Raw?
    && Lookup(e.headers, "x-hub-signature-256") == Some(Expected(lib.hmacHex, cfg.secret.value, e.body.text))
  }

  /** The delivery is acted on: a ping, or a push whose ref is the target branch. */
  predicate ShouldAct(eventType: Option<string>, payload: Json)
  {
    || eventType == Some("ping")
    || (eventType == Some("push") && payload.Obj? && "ref" in payload.fields && payload.fields["ref"] == Str(TargetRef))
  }

  /** Reading `repository.name` does not throw. */
  predicate RepositoryReadable(payload: Json)
  {
    payload.Obj? && "repository" in payload.fields && payload.fields["repository"] != Null
  }

  /** The value of `body.repository.name`. */
  function NameField(payload: Json): Value
    requires RepositoryReadable(payload)
  {
    var repository := payload.fields["repository"];
    if repository.Obj? && "name" in repository.fields then Defined(repository.fields["name"]) else Undefined
  }

  /** `body.repository.name` can be read and turned into text. */
  predicate RepositoryNameUsable(payload: Json)
  {
    RepositoryReadable(payload) && !(NameField(payload).Defined? && HasOwnToString(NameField(payload).json))
  }

  /** The error the file name's construction throws when the name is not usable. */
  function NameError(payload: Json): Error
  {
    if payload == Null then NullishRead("repository")
    else if !RepositoryReadable(payload) then NullishRead("name")
    else NoPrimitive
  }

  /** What `"" + body.ref` gives, on a payload that is not null. */
  function RefText(payload: Json): Outcome<string>
  {
    Text(if payload.Obj? && "ref" in payload.fields then Defined(payload.fields["ref"]) else Undefined)
  }

  /** The text `"" + body.repository.name` gives. */
  function RepositoryNameText(payload: Json): string
    requires RepositoryNameUsable(payload)
  {
    Text(NameField(payload)).value
  }

  // ---------------------------------------------------------------------
  // Properties
  // ---------------------------------------------------------------------

  /** A delivery whose content type is not exactly application/json gets a
      401, whatever its signature or body, and nothing else happens. */
  lemma ContentTypeCheckedFirst(cfg: Config, lib: Primitives, aws: Aws, e: Event)
    requires Lookup(e.headers, "content-type") != Some(ContentType)
    ensures Handle(cfg, lib, aws, e) == Run(StatusCode(401, BadContentType), [], e)
  {
  }

  /** With the right content type, a signature that is absent or differs
      from the expected one gets a 402 and nothing after it runs. */
  lemma BadSignatureRejected(cfg: Config, lib: Primitives, aws: Aws, e: Event)
    requires Lookup(e.headers, "content-type") == Some(ContentType)
    requires cfg.secret.Some? && e.body.Raw?
    requires Lookup(e.headers, "x-hub-signature-256") != Some(Expected(lib.hmacHex, cfg.secret.value, e.body.text))
    ensures Handle(cfg, lib, aws, e) == Run(StatusCode(402, BadSignature), [], e)
  {
  }

  /** With the right content type, an unset secret or a body that is not a
      string makes the digest computation throw, and the handler rejects. */
  lemma SignatureCheckThrows(cfg: Config, lib: Primitives, aws: Aws, e: Event)
    requires Lookup(e.headers, "content-type") == Some(ContentType)
    requires cfg.secret.None? || !e.body.Raw?
    ensures Handle(cfg, lib, aws, e).response.Rejected?
    ensures Handle(cfg, lib, aws, e).response.error.InvalidArgType?
    ensures Handle(cfg, lib, aws, e).calls == [] && Handle(cfg, lib, aws, e).event == e
  {
  }

  /** A verified body that JSON.parse refuses makes the handler reject,
      with the event untouched. */
  lemma UnparsableBodyRejected(cfg: Config, lib: Primitives, aws: Aws, e: Event)
    requires Verified(cfg, lib, e)
    requires lib.parse(e.body.text).None?
    ensures Handle(cfg, lib, aws, e) == Run(Rejected(JsonSyntaxError), [], e)
  {
  }

  /** After both checks and the parse, AWS is called exactly when the
      delivery is a ping or a push to the target branch; any other delivery
      gets the 204 no-op reply under the key `status`, or a rejection when
      the payload is null (its `ref` cannot be read) or when `ref` cannot be
      turned into text. Either way the event's body now holds the parsed
      payload. */
  lemma ActsIffShouldAct(cfg: Config, lib: Primitives, aws: Aws, e: Event, payload: Json)
    requires Verified(cfg, lib, e)
    requires lib.parse(e.body.text) == Some(payload)
    ensures Handle(cfg, lib, aws, e).event == e.(body := Parsed(payload))
    ensures Handle(cfg, lib, aws, e).calls != [] <==> ShouldAct(Lookup(e.headers, "x-github-event"), payload)
    ensures !ShouldAct(Lookup(e.headers, "x-github-event"), payload) ==>
      Handle(cfg, lib, aws, e).response ==
        if payload == Null then Rejected(NullishRead("ref"))
        else if RefText(payload).Threw? then Rejected(NoPrimitive)
        else Status(204, NoOpPrefix + RefText(payload).value)
  {
  }

  /** An admitted delivery resolves to no response object exactly when every
      step of the try block succeeds, and to a 500 carrying the error
      otherwise; a failed start of the instance stops before any session. */
  lemma DispatchResponse(cfg: Config, lib: Primitives, aws: Aws, e: Event, payload: Json)
    requires Verified(cfg, lib, e)
    requires lib.parse(e.body.text) == Some(payload)
    requires ShouldAct(Lookup(e.headers, "x-github-event"), payload)
    ensures Handle(cfg, lib, aws, e).response == NoResponse <==>
      aws.instanceOk.Done? && aws.startSession.Done? && RepositoryNameUsable(payload) && aws.sendCommand.Done?
    ensures aws.instanceOk.Threw? ==>
      Handle(cfg, lib, aws, e).response == StatusCodeError(500, aws.instanceOk.error) &&
      |Handle(cfg, lib, aws, e).calls| == 1
  {
  }

  /** The 500 of an admitted delivery carries the error of the step that
      failed, and the calls stop at that step: a failed StartSession, a
      `repository.name` that cannot be read or turned into text, or a failed
      SendCommand. */
  lemma DispatchErrors(cfg: Config, lib: Primitives, aws: Aws, e: Event, payload: Json)
    requires Verified(cfg, lib, e)
    requires lib.parse(e.body.text) == Some(payload)
    requires ShouldAct(Lookup(e.headers, "x-github-event"), payload)
    requires aws.instanceOk.Done?
    ensures aws.startSession.Threw? ==>
      Handle(cfg, lib, aws, e).response == StatusCodeError(500, aws.startSession.error) &&
      |Handle(cfg, lib, aws, e).calls| == 2
    ensures aws.startSession.Done? && !RepositoryNameUsable(payload) ==>
      Handle(cfg, lib, aws, e).response == StatusCodeError(500, NameError(payload)) &&
      |Handle(cfg, lib, aws, e).calls| == 2
    ensures aws.startSession.Done? && RepositoryNameUsable(payload) && aws.sendCommand.Threw? ==>
      Handle(cfg, lib, aws, e).response == StatusCodeError(500, aws.sendCommand.error) &&
      |Handle(cfg, lib, aws, e).calls| == 3
  {
  }

  /** The session opened for an admitted delivery is terminated only on the
      success path: when the repository name cannot be read or SendCommand
      fails, the handler replies 500 with the session still open. */
  lemma SessionLeftOpen(cfg: Config, lib: Primitives, aws: Aws, e: Event, payload: Json)
    requires Verified(cfg, lib, e)
    requires lib.parse(e.body.text) == Some(payload)
    requires ShouldAct(Lookup(e.headers, "x-github-event"), payload)
    requires aws.instanceOk.Done? && aws.startSession.Done?
    requires !RepositoryNameUsable(payload) || aws.sendCommand.Threw?
    ensures StartSession(cfg.instanceId) in Handle(cfg, lib, aws, e).calls
    ensures forall c :: c in Handle(cfg, lib, aws, e).calls ==> !c.TerminateSession?
    ensures Handle(cfg, lib, aws, e).response.StatusCodeError?
  {
  }

  /** The command an admitted delivery sends, when it gets that far. */
  function SentCommand(cfg: Config, lib: Primitives, aws: Aws, e: Event, payload: Json): string
    requires RepositoryNameUsable(payload) && Lookup(e.headers, "x-github-event").Some?
  {
    var fileName := FileName(Sanitise(aws.now), RepositoryNameText(payload), Lookup(e.headers, "x-github-event").value);
    RenderCommand(lib.stringify(e.(body := Parsed(payload))), fileName, cfg.shouldShutdownInstance)
  }

  /** An admitted delivery whose instance starts, whose session opens and
      whose repository name can be read sends exactly one command, with
      these parameters, as its third call. */
  lemma CommandCall(cfg: Config, lib: Primitives, aws: Aws, e: Event, payload: Json)
    requires Verified(cfg, lib, e)
    requires lib.parse(e.body.text) == Some(payload)
    requires ShouldAct(Lookup(e.headers, "x-github-event"), payload)
    requires aws.instanceOk.Done? && aws.startSession.Done? && RepositoryNameUsable(payload)
    ensures |Handle(cfg, lib, aws, e).calls| >= 3
    ensures Handle(cfg, lib, aws, e).calls[2] ==
      SendCommand(DocumentName, [WorkingDirectory], [SentCommand(cfg, lib, aws, e, payload)], "InstanceIds", [cfg.instanceId])
  {
    var parsed := e.(body := Parsed(payload));
    var eventType := Lookup(e.headers, "x-github-event").value;
    assert Handle(cfg, lib, aws, e) == Classify(cfg, lib, aws, parsed, payload);
    assert Classify(cfg, lib, aws, parsed, payload) == Dispatch(cfg, lib, aws, parsed, payload, eventType) by {
      if eventType == "push" {
        assert Get(Defined(payload), "ref") == Done(Defined(Str(TargetRef)));
      }
    }
    assert RepositoryName(payload).Done? && Text(RepositoryName(payload).value) == Done(RepositoryNameText(payload));
  }

  /** The command is the serialised event (its body already parsed) written
      to `events/<file>` and handed to the script, with " true" appended
      exactly when the instance is to shut down. The first single-quoted word
      is the payload exactly when it holds no single quote, and the file name
      gives back the sanitised time, the repository name and the event type. */
  lemma SentCommandShape(cfg: Config, lib: Primitives, aws: Aws, e: Event, payload: Json)
    requires RepositoryNameUsable(payload)
    requires Lookup(e.headers, "x-github-event") in {Some("ping"), Some("push")}
    ensures
      var eventType := Lookup(e.headers, "x-github-event").value;
      var json := lib.stringify(e.(body := Parsed(payload)));
      var fileName := FileName(Sanitise(aws.now), RepositoryNameText(payload), eventType);
      var cmd := SentCommand(cfg, lib, aws, e, payload);
      && cmd == RenderCommand(json, fileName, cfg.shouldShutdownInstance)
      && (EndsWith(cmd, " true") <==> cfg.shouldShutdownInstance)
      && (FirstQuoted(cmd) == json <==> '\'' !in json)
      && ('_' !in aws.now ==> SplitFileName(fileName) == Some((Sanitise(aws.now), RepositoryNameText(payload), eventType)))
  {
    var eventType := Lookup(e.headers, "x-github-event").value;
    var json := lib.stringify(e.(body := Parsed(payload)));
    var fileName := FileName(Sanitise(aws.now), RepositoryNameText(payload), eventType);
    QuotedPayloadIff(json, fileName, cfg.shouldShutdownInstance);
    if '_' !in aws.now {
      assert '_' !in eventType;
      FileNameRoundTrip(Sanitise(aws.now), RepositoryNameText(payload), eventType);
    }
  }

  // ---------------------------------------------------------------------
  // The handler over the event object it mutates
  // ---------------------------------------------------------------------

  class LambdaEvent {
    var headers: map<string, string>
    var body: Body
    var rest: map<string, Json>

    constructor (h: map<string, string>, b: Body, r: map<string, Json>)
      ensures Value() == Event(h, b, r)
    {
      headers, body, rest := h, b, r;
    }

    function Value(): Event
      reads this
    {
      Event(headers, body, rest)
    }

    /** exports.handler(event): replaces `body` by its parse once the
        signature is checked, then decides and calls AWS as `Handle` says. */
    method Invoke(cfg: Config, lib: Primitives, aws: Aws) returns (response: Response, calls: seq<Call>)
      modifies this
      ensures Run(response, calls, Value()) == Handle(cfg, lib, aws, old(Value()))
    {
      if Lookup(headers, "content-type") != Some(ContentType) {
        return StatusCode(401, BadContentType), [];
      }
      var verified := VerifySignature(lib.hmacHex, cfg.secret, body, Lookup(headers, "x-hub-signature-256"));
      if verified.Threw? {
        return Rejected(verified.error), [];
      }
      if !verified.value {
        return StatusCode(402, BadSignature), [];
      }
      var parsed := lib.parse(body.text);
      if parsed.None? {
        return Rejected(JsonSyntaxError), [];
      }
      var payload := parsed.value;
      body := Parsed(payload);
      assert Handle(cfg, lib, aws, old(Value())) == Classify(cfg, lib, aws, Value(), payload);
      var eventType := Lookup(headers, "x-github-event");

      var act := eventType == Some("ping");
      if !act && eventType == Some("push") {
        var ref := Get(Defined(payload), "ref");
        if ref.Threw? {
          return Rejected(ref.error), [];
        }
        act := ref.value == Defined(Str(TargetRef));
      }
      if !act {
        var ref := Get(Defined(payload), "ref");
        if ref.Threw? {
          return Rejected(ref.error), [];
        }
        var refText := Text(ref.value);
        if refText.Threw? {
          return Rejected(refText.error), [];
        }
        return Status(204, NoOpPrefix + refText.value), [];
      }
      assert Classify(cfg, lib, aws, Value(), payload) == Dispatch(cfg, lib, aws, Value(), payload, eventType.value);
      response, calls := TryDispatch(cfg, lib, aws, payload, eventType.value);
    }

    /** The try block of the handler, run on an admitted delivery whose body
        has been parsed: each awaited call in turn, the first failure caught
        and answered with a 500. It changes nothing in the event. */
    method TryDispatch(cfg: Config, lib: Primitives, aws: Aws, payload: Json, eventType: string)
      returns (response: Response, calls: seq<Call>)
      ensures Run(response, calls, Value()) == Dispatch(cfg, lib, aws, Value(), payload, eventType)
    {
      calls := [StartInstanceAndWait(cfg.region, cfg.instanceId, PollDelay, cfg.maxWaitTime)];
      if aws.instanceOk.Threw? {
        return StatusCodeError(500, aws.instanceOk.error), calls;
      }
      calls := calls + [StartSession(cfg.instanceId)];
      if aws.startSession.Threw? {
        return StatusCodeError(500, aws.startSession.error), calls;
      }
      var sessionId := aws.startSession.value;
      var timestamp := Sanitise(aws.now);
      var repository := Get(Defined(payload), "repository");
      if repository.Threw? {
        return StatusCodeError(500, repository.error), calls;
      }
      var name := Get(repository.value, "name");
      if name.Threw? {
        return StatusCodeError(500, name.error), calls;
      }
      var nameText := Text(name.value);
      if nameText.Threw? {
        return StatusCodeError(500, nameText.error), calls;
      }
      var fileName := FileName(timestamp, nameText.value, eventType);
      var prepCmd := PrepCommand(lib.stringify(Value()), fileName);
      var baseCmd := prepCmd + " && " + ScriptCall(fileName);
      var cmd := if cfg.shouldShutdownInstance then baseCmd + " true" else baseCmd;
      calls := calls + [SendCommand(DocumentName, [WorkingDirectory], [cmd], "InstanceIds", [cfg.instanceId])];
      if aws.sendCommand.Threw? {
        return StatusCodeError(500, aws.sendCommand.error), calls;
      }
      calls := calls + [TerminateSession(sessionId, cfg.instanceId)];
      response := NoResponse;
    }
  }
}
