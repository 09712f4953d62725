/** The log-to-alert pipeline of `error_parsing.py`: decode the delivered
    payload, inflate it, repair and parse its log events, format a
    notification, and publish it to the topic chosen by the deployment
    environment, all chained through Left/Right results. */
module ErrorParsing {
  import opened Monad
  import opened Text
  import opened JsonValue

  type Bytes = seq<bv8>

  /** The library calls the pipeline makes, each failing with a Left:
      `base64.b64decode`, `zlib.decompress(_, 16 + MAX_WBITS)`,
      `json.loads` on bytes and on text, and `json.dumps`. */
  datatype Codecs = Codecs(
    b64decode: string -> Either<Bytes>,
    gunzip: Bytes -> Either<Bytes>,
    loadsBytes: Bytes -> Either<Json>,
    loads: string -> Either<Json>,
    dumps: Json -> string)

  /** The (subject, message) pair handed to `publish`. */
  datatype Notification = Notification(subject: string, body: Json)

  const UnknownLambdaName := "Unknown Lambda name."
  const UnknownMessageId := "unknown message ID"
  const SubjectPrefix := "Lambda Error for "

  const QaArn := "arn:aws:sns:us-east-1:123123123123:app-dev-alerts-alarm"
  const StageArn := "arn:aws:sns:us-east-1:123123123123:app-stage-alerts-alarm"
  const ProdArn := "arn:aws:sns:us-east-1:123123123123:app-prod-alerts-alarm"
  const UnknownEnvironmentPrefix := "Unknown environment: "

  // ---------------------------------------------------------------------
  // decode_event, unzip_logs

  /** pydash `get(event, "awslogs.data")`: None unless `event["awslogs"]` is
      a dict holding `"data"`. */
  function AwslogsData(event: Json): (r: Option<Json>)
    ensures r.Some? ==> Subscript(event, "awslogs").Right? &&
                        Subscript(Subscript(event, "awslogs").value, "data") == Right(r.value)
    ensures r.None? ==> Subscript(event, "awslogs").Left? ||
                        Subscript(Subscript(event, "awslogs").value, "data").Left?
  {
    match Subscript(event, "awslogs")
    case Left(_) => None
    case Right(logs) =>
      match Subscript(logs, "data")
      case Left(_) => None
      case Right(d) => Some(d)
  }

  /** `decode_event`: base64-decode the string at `awslogs.data`; anything
      else there (missing, None, not a string) is a TypeError. */
  function DecodeEvent(c: Codecs, event: Json): (r: Either<Bytes>)
    ensures r.Right? ==> AwslogsData(event).Some? && AwslogsData(event).value.JString? &&
                         c.b64decode(AwslogsData(event).value.s) == r
    ensures AwslogsData(event).Some? && AwslogsData(event).value.JString? ==>
              r == c.b64decode(AwslogsData(event).value.s)
    ensures !(AwslogsData(event).Some? && AwslogsData(event).value.JString?) ==> r == Left(TypeError)
  {
    match AwslogsData(event)
    case Some(JString(data)) => c.b64decode(data)
    case _ => Left(TypeError)
  }

  /** `unzip_logs`: gzip-framed inflate; every failure is the library's. */
  function UnzipLogs(c: Codecs, blob: Bytes): Either<Bytes>
  {
    c.gunzip(blob)
  }

  // ---------------------------------------------------------------------
  // parse_log_messages, fix_json_log_message, parse_json_log_message

  /** The elements a Python `for`/`map` yields from a JSON value: a list's
      items, a string's characters, a dict's keys; anything else is not
      iterable. */
  function Iterate(v: Json): (r: Either<seq<Json>>)
    ensures v.JArray? ==> r == Right(v.items)
    ensures v.JString? ==> r.Right? && |r.value| == |v.s|
    ensures v.JObject? ==> r.Right? && |r.value| == |v.fields|
    ensures !(v.JArray? || v.JString? || v.JObject?) ==> r == Left(TypeError)
    ensures r.Right? && !v.JArray? ==> forall k :: 0 <= k < |r.value| ==> r.value[k].JString?
  {
    match v
    case JArray(items) => Right(items)
    case JString(s) => Right(seq(|s|, i requires 0 <= i < |s| => JString([s[i]])))
    case JObject(fields) => Right(seq(|fields|, i requires 0 <= i < |fields| => JString(fields[i].0)))
    case _ => Left(TypeError)
  }

  /** `fix_json_log_message`: cut the entry's `message` at its first `{`.
      A string message gives the suffix from there; a list message is cut
      the same way at its first `"{"` element (`list.index`); a message with
      no `{` raises ValueError and one of any other type has no `.index`. */
  function FixJsonLogMessage(entry: Json): (r: Either<Json>)
    ensures Subscript(entry, "message").Left? ==> r == Subscript(entry, "message")
    ensures r.Right? ==> Subscript(entry, "message").Right? &&
                         (r.value.JString? <==> Subscript(entry, "message").value.JString?) &&
                         (r.value.JArray? <==> Subscript(entry, "message").value.JArray?)
    ensures Subscript(entry, "message").Right? &&
            !(Subscript(entry, "message").value.JString? || Subscript(entry, "message").value.JArray?)
            ==> r == Left(AttributeError)
  {
    match Subscript(entry, "message")
    case Left(e) => Left(e)
    case Right(JString(msg)) =>
      (match IndexOf(msg, '{')
       case None => Left(ValueError)
       case Some(i) => Right(JString(msg[i..|msg|])))
    case Right(JArray(msg)) =>
      (match IndexOf(msg, JString("{"))
       case None => Left(ValueError)
       case Some(i) => Right(JArray(msg[i..|msg|])))
    case Right(_) => Left(AttributeError)
  }

  /** `parse_json_log_message`: `json.loads` accepts text only. */
  function ParseJsonLogMessage(c: Codecs, fixed: Json): (r: Either<Json>)
    ensures fixed.JString? ==> r == c.loads(fixed.s)
    ensures !fixed.JString? ==> r == Left(TypeError)
  {
    match fixed
    case JString(text) => c.loads(text)
    case _ => Left(TypeError)
  }

  /** `parse_log_messages`: parse the inflated batch, repair every event,
      then parse every repaired event, and rebuild the batch with only
      `logEvents` replaced.  The first exception ends it with a Left. */
  function ParseLogMessages(c: Codecs, decompressed: Bytes): (r: Either<Json>)
    ensures c.loadsBytes(decompressed).Left? ==> r == Left(c.loadsBytes(decompressed).error)
    ensures r.Right? ==> c.loadsBytes(decompressed).Right? &&
                         Subscript(c.loadsBytes(decompressed).value, "logEvents").Right? &&
                         r.value.JObject? &&
                         Keys(r.value.fields) == Keys(c.loadsBytes(decompressed).value.fields)
  {
    match c.loadsBytes(decompressed)
    case Left(e) => Left(e)
    case Right(data) =>
      match Subscript(data, "logEvents")
      case Left(e) => Left(e)
      case Right(events) =>
        match Iterate(events)
        case Left(e) => Left(e)
        case Right(items) =>
          match MapAll(FixJsonLogMessage, items)
          case Left(e) => Left(e)
          case Right(fixed) =>
            match MapAll(m => ParseJsonLogMessage(c, m), fixed)
            case Left(e) => Left(e)
            case Right(parsed) => Right(JObject(Put(data.fields, "logEvents", JArray(parsed))))
  }

  // ---------------------------------------------------------------------
  // format_message_for_sns

  /** Element 3 of `logGroup.split('/')`, or the sentinel when there is none. */
  function LambdaName(logGroup: string): (name: string)
    ensures Count(logGroup, '/') >= 3 ==>
              |Split(logGroup, '/')| >= 4 && name == Split(logGroup, '/')[3] && '/' !in name
    ensures Count(logGroup, '/') < 3 ==> name == UnknownLambdaName
  {
    SplitCount(logGroup, '/');
    SplitPiecesHaveNoSeparator(logGroup, '/');
    var parts := Split(logGroup, '/');
    if |parts| >= 4 then parts[3] else UnknownLambdaName
  }

  /** `format_message_for_sns`: never returns a Left, but raises (uncaught)
      when `logGroup` or `logStream` is missing or `logGroup` is no string. */
  function FormatMessageForSns(log: Json): (r: Py<Either<Notification>>)
    ensures r.Returned? ==> r.value.Right?
    ensures r.Returned? <==>
              Subscript(log, "logGroup").Right? && Subscript(log, "logGroup").value.JString? &&
              Subscript(log, "logStream").Right? && Subscript(log, "logEvents").Right?
    ensures Subscript(log, "logGroup").Left? ==> r == Raised(Subscript(log, "logGroup").error)
  {
    match Subscript(log, "logGroup")
    case Left(e) => Raised(e)
    case Right(group) =>
      if !group.JString? then Raised(AttributeError)
      else
        var name := LambdaName(group.s);
        match Subscript(log, "logStream")
        case Left(e) => Raised(e)
        case Right(stream) =>
          match Subscript(log, "logEvents")
          case Left(e) => Raised(e)
          case Right(events) =>
            var body := JObject([("lambdaName", JString(name)), ("logGroup", group),
                                 ("logStream", stream), ("messages", events)]);
            Returned(Right(Notification(SubjectPrefix + name, body)))
  }

  // ---------------------------------------------------------------------
  // publish, get_arn_from_environment

  /** `publish(sns, arn, (subject, message))`: the client gets `arn` exactly
      as passed, whatever its type.  The answer is the response's
      `messageID`, or the sentinel when the response has none; a client
      failure becomes a Left. */
  function Publish<A>(sns: (A, string, string) -> Either<Json>, dumps: Json -> string,
                      arn: A, n: Notification): (r: Either<Json>)
    ensures sns(arn, dumps(n.body), n.subject).Left? ==> r == sns(arn, dumps(n.body), n.subject)
    ensures sns(arn, dumps(n.body), n.subject).Right? ==>
              var resp := sns(arn, dumps(n.body), n.subject).value;
              r.Right? &&
              (resp.JObject? && "messageID" in Keys(resp.fields) ==> Get(resp.fields, "messageID") == Some(r.value)) &&
              (!(resp.JObject? && "messageID" in Keys(resp.fields)) ==> r.value == JString(UnknownMessageId))
  {
    match sns(arn, dumps(n.body), n.subject)
    case Left(e) => Left(e)
    case Right(response) => Right(GetOr(response, "messageID", JString(UnknownMessageId)))
  }

  /** How Python formats `env` inside an f-string. */
  function EnvText(env: Option<string>): string
  {
    match env
    case None => "None"
    case Some(v) => v
  }

  /** `get_arn_from_environment`, with the value of `PY_ENV` as a parameter. */
  function GetArnFromEnvironment(env: Option<string>): (r: Either<string>)
    ensures r.Right? <==> env == Some("qa") || env == Some("stage") || env == Some("prod")
    ensures r.Left? ==> r.error == Message(UnknownEnvironmentPrefix + EnvText(env))
  {
    if env == Some("qa") then Right(QaArn)
    else if env == Some("stage") then Right(StageArn)
    else if env == Some("prod") then Right(ProdArn)
    else Left(Message(UnknownEnvironmentPrefix + EnvText(env)))
  }

  // ---------------------------------------------------------------------
  // send_error_to_sns

  /** Lines 88-91: decode, inflate, parse and format, each through `.then`. */
  function Formatted(c: Codecs, event: Json): (r: Py<Either<Notification>>)
    ensures !Stopped(r) ==>
              DecodeEvent(c, event).Right? &&
              UnzipLogs(c, DecodeEvent(c, event).value).Right? &&
              ParseLogMessages(c, UnzipLogs(c, DecodeEvent(c, event).value).value).Right? &&
              FormatMessageForSns(ParseLogMessages(c, UnzipLogs(c, DecodeEvent(c, event).value).value).value)
                == r
  {
    Then(Then(Then(Lift(DecodeEvent(c, event)),
                   b => Lift(UnzipLogs(c, b))),
              d => Lift(ParseLogMessages(c, d))),
         FormatMessageForSns)
  }

  /** Lines 92-93 applied to the outcome of lines 88-91: `.then(publish(sns, arn))`
      and `.either(raise_error, identity)`.  `arn` is handed to the client as is. */
  function PublishStage<A>(formatted: Py<Either<Notification>>, sns: (A, string, string) -> Either<Json>,
                           dumps: Json -> string, arn: A): (r: Py<Json>)
    ensures Stopped(formatted) ==> r.Raised?
    ensures !Stopped(formatted) ==>
              var n := formatted.value.value;
              (r.Returned? <==> sns(arn, dumps(n.body), n.subject).Right?)
  {
    Unwrap(Then(formatted, n => Lift(Publish(sns, dumps, arn, n))))
  }

  /** `send_error_to_sns` as written: the environment lookup is evaluated
      whatever the chain did, and its Either itself is passed as `arn`. */
  function SendErrorToSns(c: Codecs, sns: (Either<string>, string, string) -> Either<Json>,
                          env: Option<string>, event: Json): (r: Py<Json>)
    ensures Stopped(Formatted(c, event)) ==> r.Raised?
    ensures !Stopped(Formatted(c, event)) ==>
              var n := Formatted(c, event).value.value;
              (r.Returned? <==> sns(GetArnFromEnvironment(env), c.dumps(n.body), n.subject).Right?)
  {
    PublishStage(Formatted(c, event), sns, c.dumps, GetArnFromEnvironment(env))
  }

  /** Lines 92-93 corrected: the lookup's Left stops the
      chain, and the client gets the ARN string out of its Right. */
  function PublishStageIntended(formatted: Py<Either<Notification>>, sns: (string, string, string) -> Either<Json>,
                                dumps: Json -> string, arn: Either<string>): (r: Py<Json>)
    ensures Stopped(formatted) ==> r.Raised?
    ensures arn.Left? ==> r.Raised?
    ensures r.Returned? ==>
              var n := formatted.value.value;
              arn.Right? && sns(arn.value, dumps(n.body), n.subject).Right?
  {
    Unwrap(Then(formatted, n => Lift(arn.Bind(a => Publish(sns, dumps, a, n)))))
  }

  /** `send_error_to_sns` corrected: an unknown environment
      stops the chain before the client is called. */
  function SendErrorToSnsIntended(c: Codecs, sns: (string, string, string) -> Either<Json>,
                                  env: Option<string>, event: Json): (r: Py<Json>)
    ensures Stopped(Formatted(c, event)) ==> r.Raised?
    ensures GetArnFromEnvironment(env).Left? ==> r.Raised?
  {
    PublishStageIntended(Formatted(c, event), sns, c.dumps, GetArnFromEnvironment(env))
  }
}
