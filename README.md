# Webhook handler for the metron instance, in Dafny

The handler in `assets/js/lambda.js` is an AWS Lambda function that receives a
GitHub webhook delivery. Its checks run in a fixed order:

1. It rejects a delivery whose `content-type` header is not exactly
   `application/json`, with a 401.
2. It rejects a delivery whose `x-hub-signature-256` header differs from
   `"sha256="` followed by the hex HMAC-SHA256 of the raw body under the shared
   secret, with a 402.
3. It replaces `event.body` by its JSON parse.
4. It acts only on a `ping`, or on a `push` whose `ref` is `refs/heads/metron`.
   Every other delivery gets a 204 no-op reply, unless reading `ref` or
   turning it into text throws; then the handler's promise rejects.

For a delivery it acts on, the handler makes these calls in order:

1. It starts the EC2 instance and waits for its status to be ok.
2. It opens a Systems Manager session.
3. It sends one shell command, built from the serialised event. The command
   writes the event to `events/<timestamp>_<repository>_<type>.json` and runs
   `./bin/webhook.sh` on that file. It appends ` true` when the instance is to
   shut down.
4. It terminates the session.

Any failure inside this stage is caught and answered with a 500. Success
returns nothing.

The model is in four files:

- `js.dfy` (modules `Js`, `Events`) covers the part of JavaScript the handler
  depends on: the values JSON.parse produces, `undefined`, a property read
  (which throws on `undefined` and `null`), the conversion `+` applies (which
  throws a TypeError on an object with its own `toString` field, because
  that field is not callable), and the errors the handler can throw. It also
  holds the event record. The event's body is the raw text on arrival and the
  parsed payload after the handler replaces it.
- `signature.dfy` (module `Signature`) is `verify_signature`. The digest is a
  function parameter.
- `render.dfy` (module `Render`) covers the sanitised timestamp, the file
  name and the shell command. It also takes the first single-quoted span of
  a command.
- `handler.dfy` (module `Handler`) holds the configuration, the handler as
  one pure function `Handle`, and the lemmas about it. The class `LambdaEvent`
  holds the same handler written step by step: `Invoke` changes the event
  object's `body` in place, and the method is proved equal to `Handle`.

`Handle` takes four inputs:

- the configuration;
- the foreign functions: the HMAC hex digest, JSON.parse and JSON.stringify;
- how each awaited AWS call settles (success with its result, or a thrown
  error), plus the clock's ISO string;
- the event.

It returns three things: the response, the AWS calls made in order with their
parameters, and the event as the handler leaves it. The response is one of:

- `{statusCode, body}`;
- `{status, body}`, the key the no-op reply uses instead of `statusCode`;
- `{statusCode: 500, body: err}`;
- no response object at all;
- a rejected promise, when something throws outside the try block.

The model follows the code where the code stops short of what a careful
design of this system would do:

- The signature is compared with ordinary string equality.
- A bad signature gets 402, not 401.
- A successful dispatch returns no response object.
- The no-op reply uses the key `status`.
- The payload goes into a single-quoted shell word without escaping.
  `QuotedPayloadIff` shows that the first single-quoted word of the command
  is the payload exactly when the payload has no single quote. The file name,
  which holds `repository.name` from the payload, is single-quoted the same
  way in the redirect and the script call.
- The session is terminated only on the success path. If reading the
  repository name, turning it into text or SendCommand fails, the handler
  replies 500 and leaves the session open (`SessionLeftOpen`).
- The handler does not poll the command's invocation.

## Model

| member | source | states |
|---|---|---|
| `Handler.LoadConfig` | assets/js/lambda.js:1-5 | The secret is absent exactly when `WEBHOOK_SECRET` is unset, and otherwise is its value. The region and instance id are `REGION` and `INSTANCE_ID` as set or absent. The wait bound is 500 when `MAX_WAIT_TIME` is unset or empty, and `parseInt` of its value otherwise. Shutdown is on exactly when `SHOULD_SHUTDOWN_INSTANCE` is the string `"true"`. |
| `Signature.VerifySignature` | assets/js/lambda.js:12-16 | Throws exactly when the secret is unset or the body is not a string. Otherwise accepts exactly when the header equals `"sha256="` + hex HMAC(secret, body); an absent header never matches. |
| `Signature.AbsentSignatureFails` | assets/js/lambda.js:12-16 | A delivery without the signature header is never accepted. |
| `Signature.AcceptedSignatureUnique` | assets/js/lambda.js:12-16 | For a given secret and body, only one header value is accepted. Changing an accepted signature in any way makes it fail. |
| `Signature.SenderSignatureAccepted` | assets/js/lambda.js:12-16 | The signature a sender computes with the same secret over the same body is accepted. |
| `Js.Get` | assets/js/lambda.js:43-44 | A property read throws exactly on `undefined` and `null`. It yields a defined value exactly when the value is an object with that own field, and then yields that field. |
| `Handler.Handle` | assets/js/lambda.js:32-77 | In every run, the AWS calls follow the order instance, session, command, termination, each at most once. Once any call is made, the reply is a 500 or nothing, and nothing means all four calls were made. The event keeps its headers; its body is unchanged or replaced by the parse of the raw text. |
| `Handler.ContentTypeCheckedFirst` | assets/js/lambda.js:33-35 | A content type other than exactly `application/json` gives `{statusCode: 401, body: "bad content-type, expected json"}`, whatever the signature or body. No call is made and the event is untouched. |
| `Handler.BadSignatureRejected` | assets/js/lambda.js:36-38 | With the right content type, an absent or wrong signature gives `{statusCode: 402, body: "bad signature"}`. No call is made and the event is untouched. |
| `Handler.SignatureCheckThrows` | assets/js/lambda.js:12-16 | With the right content type, an unset secret or a non-string body makes the digest throw. The handler's promise rejects, no call is made and the event is untouched. |
| `Handler.UnparsableBodyRejected` | assets/js/lambda.js:40 | A verified body that JSON.parse refuses makes the handler reject, and the event is untouched. |
| `Handler.ActsIffShouldAct` | assets/js/lambda.js:40-45 | After the checks and the parse, the event's body holds the parsed payload. AWS is called exactly when the event type is `ping`, or `push` with `ref` equal to `refs/heads/metron`. Otherwise the reply is `{status: 204, body: "no-op event for ref " + ref}`. It is instead a rejection when the payload is `null`, or when `ref` cannot be turned into text. |
| `Handler.Classify` | assets/js/lambda.js:41-45 | Classification keeps the pipeline invariant and does not touch the event. |
| `Handler.NoOp` | assets/js/lambda.js:44 | The no-op reply makes no call and is always an answer or a rejection, never an empty response. `ActsIffShouldAct` gives its exact value, including the rejection when `+` throws on `ref`. |
| `Handler.RepositoryName` | assets/js/lambda.js:53 | Reading `body.repository.name` throws unless the payload is an object whose `repository` field is present and not `null`. The error names `repository` on a null payload and `name` otherwise. When it does not throw, it yields the `name` field, or `undefined` when there is none. |
| `Handler.Dispatch` | assets/js/lambda.js:46-77 | The try block always makes at least the instance call. It keeps the pipeline invariant and leaves the event as it is. A name that `+` cannot convert throws inside the try block. `DispatchErrors` states which error the 500 then carries. |
| `Handler.SendThenClose` | assets/js/lambda.js:57-68 | The command is sent with the RunShellScript document, the `/home/ec2-user` directory and the instance as target. The session is terminated only when sending succeeded; otherwise the reply is a 500 carrying the error. |
| `Handler.DispatchResponse` | assets/js/lambda.js:46-77 | For an admitted delivery, there is no response object exactly when four steps all succeed: the instance start, the session, reading the repository name and turning it into text, and SendCommand. Otherwise the reply is a 500. A failed instance start gives a 500 carrying its error, and stops before any session is opened. |
| `Handler.DispatchErrors` | assets/js/lambda.js:46-75 | Each later failure gives `{statusCode: 500, body: err}`, carrying the failing step's own error, and the calls stop there. After a failed StartSession there are two calls. After a `repository.name` that cannot be read or converted there are two calls, with `NullishRead("repository")`, `NullishRead("name")` or the conversion TypeError as the error. After a failed SendCommand there are three. |
| `Handler.SessionLeftOpen` | assets/js/lambda.js:48-75 | When the session opened but the repository name cannot be read or turned into text, or SendCommand fails, the reply is a 500. The calls include StartSession and no TerminateSession. |
| `Handler.CommandCall` | assets/js/lambda.js:52-64 | An admitted delivery that gets past the session, reads the repository name and turns it into text makes its third call a SendCommand. That call carries the rendered command for the parsed event, the sanitised clock, the repository name and the event type. |
| `Handler.SentCommandShape` | assets/js/lambda.js:52-56 | The command sent renders the serialised event after its body was parsed. It ends in `" true"` exactly when shutdown is on. The payload is the first quoted shell word exactly when it has no single quote. When the clock string has no `_`, the file name splits back into the sanitised time, the repository name and the event type. |
| `Handler.LambdaEvent.Invoke` | assets/js/lambda.js:32-77 | The step-by-step handler over the event object returns the response and calls `Handle` gives. It leaves the object in the state `Handle` gives, with `body` replaced by its parse once the signature is checked. |
| `Handler.LambdaEvent.TryDispatch` | assets/js/lambda.js:46-77 | The step-by-step try block returns exactly what `Dispatch` gives and changes nothing in the event. |
| `Render.ReplaceColons` | assets/js/lambda.js:52 | `replace(/:/g, '-')` keeps the length, turns every `:` into `-` and leaves every other character in its place. |
| `Render.FirstMillis` | assets/js/lambda.js:52 | Finds the leftmost position where `\.\d{3}` matches, or the length when none does. |
| `Render.RemoveFirstMillis` | assets/js/lambda.js:52 | `replace(/\.\d{3}/, '')` leaves a text without a match unchanged. Otherwise it is four characters shorter, keeps everything before the leftmost match and continues with what followed that match. |
| `Render.Sanitise` | assets/js/lambda.js:52 | The sanitised timestamp has no `:` and gains no `_`. |
| `Render.SanitiseDropsFirstMillis` | assets/js/lambda.js:52 | When the time has a `.ddd`, sanitising removes its leftmost one, and every `:` on either side becomes `-`. |
| `Render.SanitiseWithoutMillis` | assets/js/lambda.js:52 | Without any `.ddd`, sanitising only replaces the colons. |
| `Render.ReplaceColonsSameMatch` | assets/js/lambda.js:52 | Replacing the colons first does not move the `.ddd` the second replacement removes. |
| `Render.FileName` | assets/js/lambda.js:53 | The file name starts with the timestamp and `_`, ends with `_`, the event type and `.json`, and is exactly two characters longer than its three parts plus the extension. |
| `Render.FileNameRoundTrip` | assets/js/lambda.js:53 | `timestamp + "_" + repository + "_" + type + ".json"` splits back into its three parts whenever the timestamp and the type have no `_`. The repository name may contain `_`. |
| `Render.BaseCommand` | assets/js/lambda.js:54-55 | The command opens with `mkdir events && echo '`, then holds the payload verbatim, then a closing quote. It ends with `./bin/webhook.sh events/'<file>'`. The redirect of echo to that same `events/'<file>'` between them is stated by the helper lemma `CommandShape`. |
| `Render.RenderCommand` | assets/js/lambda.js:56 | The command is the base command with `" true"` appended when shutdown is on and the base command otherwise. It ends in `" true"` exactly when shutdown is on. |
| `Render.QuotedPayloadIff` | assets/js/lambda.js:54-56 | The first single-quoted word of the command equals the payload exactly when the payload has no single quote. |
| `Js.Text` | assets/js/lambda.js:44 | `"" + v` throws a TypeError exactly when `v` is, or holds inside arrays, an object with its own `toString` field. Otherwise it gives `"undefined"` for `undefined` and the string itself for a string. |
| `Js.JsonText` | assets/js/lambda.js:53 | Converting a parsed value to text throws exactly when it reaches an object with its own `toString` field, directly or through array elements, and the error is the TypeError. |
| `Js.JoinAppend` | assets/js/lambda.js:53 | Joining array elements agrees with building the text from the left, appending the separator and the next element each time. |

## Left out

- Starting the EC2 instance and waiting for status ok (lines 18-30) is one opaque step that succeeds or throws. The SDK's polling loop inside `waitUntilInstanceStatusOk` is not modelled. The call records the region, instance, 5-second delay and wait bound passed to it.
- StartSession, SendCommand and TerminateSession are modelled only by their outcomes and the parameters passed. The TerminateSession at line 68 is not awaited. The model records it as sent, but not its outcome or an unhandled rejection from it.
- The HMAC-SHA256 hex digest, JSON.parse, JSON.stringify, `parseInt` and `new Date().toISOString()` are inputs, not computations. JSON.parse failing is modelled as `None`.
- A numeric JSON value carries the text JavaScript prints for it. Converting numbers to text is not modelled.
- A property read looks only at a parsed object's own fields. Inherited properties are not modelled. The handler reads `ref`, `repository` and `name` directly, and none of these exists on `Object.prototype`. The `toString` and `valueOf` lookups that `+` performs are modelled. When the own field is absent, they find the inherited methods, which give `"[object Object]"` for an object and the joined elements for an array.
- LoadConfig: `parseInt` is a function to integers, so the NaN it returns for a value such as `"abc"` is not represented. A NaN wait bound is only passed on to the instance wait, which is itself opaque here.
- `console.error(err)` at line 70 is logging and is left out.
- The SendCommand result's `Command.CommandId` (line 65) is never used. A result without `Command`, which would throw inside the try block and give a 500, is not modelled. A StartSession result without `SessionId` is not modelled either.
- An event without a `headers` object is not modelled. The model always has a header map, possibly empty.
- Constant-time comparison is not a property of the code, which compares strings with `==`. Timing is out of scope.
- Concurrency between overlapping deliveries, and the Lambda runtime's handling of a rejected promise or an empty response, are out of scope.
