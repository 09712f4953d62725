/** What `error_parsing.py` promises about its pipeline, proved of the model
    in `ErrorParsing`. */
module ErrorParsingProps {
  import opened Monad
  import opened Text
  import opened JsonValue
  import opened ErrorParsing

  // ---------------------------------------------------------------------
  // Log-message repair

  /** A string message is cut at its first `{`: the result is the suffix
      that starts there, and no `{` comes before it.  Without `{` the repair
      raises ValueError. */
  lemma FixKeepsSuffixFromFirstBrace(entry: Json, m: string)
    requires Subscript(entry, "message") == Right(JString(m))
    ensures '{' !in m ==> FixJsonLogMessage(entry) == Left(ValueError)
    ensures '{' in m ==>
              FixJsonLogMessage(entry).Right? && FixJsonLogMessage(entry).value.JString? &&
              var f := FixJsonLogMessage(entry).value.s;
              0 < |f| <= |m| && f[0] == '{' && m[|m| - |f|..] == f && '{' !in m[..|m| - |f|]
  {
    if '{' in m {
      var i := IndexOf(m, '{').value;
      assert m[i..|m|] == m[i..];
      assert FixJsonLogMessage(entry) == Right(JString(m[i..]));
      assert |m| - |m[i..]| == i;
    }
  }

  /** A list message is cut at its first `"{"` element: the result is the
      tail of the list that starts there, and no `"{"` comes before it.
      Without such an element `list.index` raises ValueError. */
  lemma FixCutsListAtFirstBrace(entry: Json, m: seq<Json>)
    requires Subscript(entry, "message") == Right(JArray(m))
    ensures JString("{") !in m ==> FixJsonLogMessage(entry) == Left(ValueError)
    ensures JString("{") in m ==>
              FixJsonLogMessage(entry).Right? && FixJsonLogMessage(entry).value.JArray? &&
              var f := FixJsonLogMessage(entry).value.items;
              0 < |f| <= |m| && f[0] == JString("{") && m[|m| - |f|..] == f &&
              JString("{") !in m[..|m| - |f|]
  {
    if JString("{") in m {
      var i := IndexOf(m, JString("{")).value;
      assert m[i..|m|] == m[i..];
      assert FixJsonLogMessage(entry) == Right(JArray(m[i..]));
      assert |m| - |m[i..]| == i;
    }
  }

  /** Noise without a brace, followed by text that opens with `{`, is
      repaired to exactly that text. */
  lemma RepairDropsNoise(entry: Json, noise: string, payload: string)
    requires Subscript(entry, "message") == Right(JString(noise + payload))
    requires '{' !in noise && |payload| > 0 && payload[0] == '{'
    ensures FixJsonLogMessage(entry) == Right(JString(payload))
  {
    var m := noise + payload;
    assert m[..|noise|] == noise;
    FirstIndexIs(m, '{', |noise|);
    assert m[|noise|..|m|] == payload;
  }

  /** Example: the noise before the JSON object is dropped.
      The string is a parameter so that the verifier does not unfold the
      functions on the literal. */
  lemma RepairDropsPrefixNoise(m: string)
    requires m == "prefix-noise{\"a\":1}"
    ensures FixJsonLogMessage(JObject([("message", JString(m))])) == Right(JString("{\"a\":1}"))
  {
    MessageOfSingleEntry(m);
    assert m == "prefix-noise" + "{\"a\":1}";
    RepairDropsNoise(JObject([("message", JString(m))]), "prefix-noise", "{\"a\":1}");
  }

  /** Example: a message with no brace is refused.
      The string is a parameter so that the verifier does not unfold the
      functions on the literal. */
  lemma RepairRefusesPlainText(m: string)
    requires m == "no braces here"
    ensures FixJsonLogMessage(JObject([("message", JString(m))])) == Left(ValueError)
  {
    MessageOfSingleEntry(m);
    assert forall i :: 0 <= i < |m| ==> m[i] != '{';
    FixKeepsSuffixFromFirstBrace(JObject([("message", JString(m))]), m);
  }

  /** `{"message": m}["message"]` is `m`. */
  lemma MessageOfSingleEntry(m: string)
    ensures Subscript(JObject([("message", JString(m))]), "message") == Right(JString(m))
  {
    FirstIndexIs(Keys([("message", JString(m))]), "message", 0);
  }

  /** The batch parse succeeds exactly when every event repairs and every
      repaired event parses.  Then the batch keeps all its keys in their
      places and all their values but `logEvents`, which becomes the list of
      parsed events in the same order. */
  lemma ParseLogMessagesReplacesOnlyLogEvents(c: Codecs, d: Bytes, data: Json, items: seq<Json>)
    requires c.loadsBytes(d) == Right(data)
    requires Subscript(data, "logEvents").Right?
    requires Iterate(Subscript(data, "logEvents").value) == Right(items)
    ensures ParseLogMessages(c, d).Right? <==>
              forall k :: 0 <= k < |items| ==>
                FixJsonLogMessage(items[k]).Right? &&
                ParseJsonLogMessage(c, FixJsonLogMessage(items[k]).value).Right?
    ensures ParseLogMessages(c, d).Right? ==>
              var out := ParseLogMessages(c, d).value;
              out.JObject? && Keys(out.fields) == Keys(data.fields) &&
              (forall key :: key != "logEvents" ==> Get(out.fields, key) == Get(data.fields, key)) &&
              Get(out.fields, "logEvents").Some? && Get(out.fields, "logEvents").value.JArray? &&
              var parsed := Get(out.fields, "logEvents").value.items;
              |parsed| == |items| &&
              forall k :: 0 <= k < |items| ==>
                parsed[k] == ParseJsonLogMessage(c, FixJsonLogMessage(items[k]).value).value
  {
    var fixes := MapAll(FixJsonLogMessage, items);
    if fixes.Right? {
      var fixed := fixes.value;
      var parse := (m: Json) => ParseJsonLogMessage(c, m);
      var parses := MapAll(parse, fixed);
      assert forall k :: 0 <= k < |items| ==> fixed[k] == FixJsonLogMessage(items[k]).value;
      assert parses.Right? <==> forall k :: 0 <= k < |fixed| ==> parse(fixed[k]).Right?;
      if parses.Right? {
        assert ParseLogMessages(c, d) == Right(JObject(Put(data.fields, "logEvents", JArray(parses.value))));
      } else {
        var j :| 0 <= j < |fixed| && parse(fixed[j]).Left?;
        assert ParseJsonLogMessage(c, FixJsonLogMessage(items[j]).value).Left?;
      }
    } else {
      var j :| 0 <= j < |items| && FixJsonLogMessage(items[j]).Left?;
    }
  }

  /** All or nothing: one event without a `{` in its message fails the whole
      batch, so no partial `logEvents` is ever produced. */
  lemma MessageWithoutBraceFailsBatch(c: Codecs, d: Bytes, data: Json, items: seq<Json>, j: nat, m: string)
    requires c.loadsBytes(d) == Right(data)
    requires Subscript(data, "logEvents").Right?
    requires Iterate(Subscript(data, "logEvents").value) == Right(items)
    requires j < |items| && Subscript(items[j], "message") == Right(JString(m)) && '{' !in m
    ensures ParseLogMessages(c, d).Left?
  {
    FixKeepsSuffixFromFirstBrace(items[j], m);
    ParseLogMessagesReplacesOnlyLogEvents(c, d, data, items);
  }

  /** Every event is repaired before any is parsed, so the batch fails with
      the first repair failure even when an earlier event would not parse. */
  lemma FirstRepairFailureWins(c: Codecs, d: Bytes, data: Json, items: seq<Json>, j: nat)
    requires c.loadsBytes(d) == Right(data)
    requires Subscript(data, "logEvents").Right?
    requires Iterate(Subscript(data, "logEvents").value) == Right(items)
    requires j < |items| && FixJsonLogMessage(items[j]).Left?
    requires forall k :: 0 <= k < j ==> FixJsonLogMessage(items[k]).Right?
    ensures ParseLogMessages(c, d) == Left(FixJsonLogMessage(items[j]).error)
  {
    MapAllFirstFailure(FixJsonLogMessage, items, j);
  }

  /** With every event repaired, the batch fails with the first parse failure. */
  lemma FirstParseFailureWins(c: Codecs, d: Bytes, data: Json, items: seq<Json>, j: nat)
    requires c.loadsBytes(d) == Right(data)
    requires Subscript(data, "logEvents").Right?
    requires Iterate(Subscript(data, "logEvents").value) == Right(items)
    requires forall k :: 0 <= k < |items| ==> FixJsonLogMessage(items[k]).Right?
    requires j < |items| && ParseJsonLogMessage(c, FixJsonLogMessage(items[j]).value).Left?
    requires forall k :: 0 <= k < j ==> ParseJsonLogMessage(c, FixJsonLogMessage(items[k]).value).Right?
    ensures ParseLogMessages(c, d) == Left(ParseJsonLogMessage(c, FixJsonLogMessage(items[j]).value).error)
  {
    var fixed := MapAll(FixJsonLogMessage, items).value;
    var parse := (m: Json) => ParseJsonLogMessage(c, m);
    assert forall k :: 0 <= k < |items| ==>
      parse(fixed[k]) == ParseJsonLogMessage(c, FixJsonLogMessage(items[k]).value);
    MapAllFirstFailure(parse, fixed, j);
  }

  // ---------------------------------------------------------------------
  // Notification formatting

  /** The name is the fourth `/`-separated piece of a path built from at
      least four pieces, whatever follows it. */
  lemma {:induction false} LambdaNameOfPath(parts: seq<string>)
    requires |parts| >= 4
    requires forall k :: 0 <= k < |parts| ==> '/' !in parts[k]
    ensures LambdaName(Join(parts, '/')) == parts[3]
  {
    SplitJoin(parts, '/');
    SplitCount(Join(parts, '/'), '/');
  }

  /** Example: the name is read from a Lambda log-group path.
      The string is a parameter so that the verifier does not unfold the
      functions on the literal. */
  lemma LambdaNameOfExamplePath(path: string)
    requires path == "/aws/lambda/my-fn/extra"
    ensures LambdaName(path) == "my-fn"
  {
    var parts := ["", "aws", "lambda", "my-fn", "extra"];
    assert Join(parts, '/') == path;
    LambdaNameOfPath(parts);
  }

  /** Example: a group without three `/` gets the sentinel.
      The string is a parameter so that the verifier does not unfold the
      functions on the literal. */
  lemma LambdaNameOfShortGroup(group: string)
    requires group == "short"
    ensures LambdaName(group) == UnknownLambdaName
  {
    assert forall i :: 0 <= i < |group| ==> group[i] != '/';
    SplitWithoutSeparator(group, '/');
    SplitCount(group, '/');
  }

  /** The subject names the Lambda, and the body carries the batch's
      `logGroup`, `logStream` and `logEvents` unchanged. */
  lemma FormatCopiesBatchFields(log: Json)
    requires FormatMessageForSns(log).Returned?
    ensures var n := FormatMessageForSns(log).value.value;
            var group := Subscript(log, "logGroup").value;
            n.subject == SubjectPrefix + LambdaName(group.s) &&
            n.body.JObject? &&
            Keys(n.body.fields) == ["lambdaName", "logGroup", "logStream", "messages"] &&
            Get(n.body.fields, "lambdaName") == Some(JString(LambdaName(group.s))) &&
            Get(n.body.fields, "logGroup") == Get(log.fields, "logGroup") &&
            Get(n.body.fields, "logStream") == Get(log.fields, "logStream") &&
            Get(n.body.fields, "messages") == Get(log.fields, "logEvents")
  {
    var n := FormatMessageForSns(log).value.value;
    var ks := Keys(n.body.fields);
    assert ks == ["lambdaName", "logGroup", "logStream", "messages"];
    FirstIndexIs(ks, "lambdaName", 0);
    FirstIndexIs(ks, "logGroup", 1);
    FirstIndexIs(ks, "logStream", 2);
    FirstIndexIs(ks, "messages", 3);
  }

  // ---------------------------------------------------------------------
  // Environment -> topic

  /** The three known environments name three different topics; the
      mapping of `qa` to the dev topic is the source's. */
  lemma KnownEnvironmentsHaveDistinctTopics()
    ensures GetArnFromEnvironment(Some("qa")) == Right(QaArn)
    ensures GetArnFromEnvironment(Some("stage")) == Right(StageArn)
    ensures GetArnFromEnvironment(Some("prod")) == Right(ProdArn)
    ensures QaArn != StageArn && StageArn != ProdArn && QaArn != ProdArn
  {
    assert QaArn[43] != StageArn[43];
    assert QaArn[43] != ProdArn[43];
    assert StageArn[44] != ProdArn[44];
  }

  /** Any other value, and an unset variable, is a Left whose message ends
      with that value as Python prints it. */
  lemma UnknownEnvironmentNamesValue(env: Option<string>)
    requires env != Some("qa") && env != Some("stage") && env != Some("prod")
    ensures GetArnFromEnvironment(env).Left?
    ensures var text := GetArnFromEnvironment(env).error.text;
            text[..|UnknownEnvironmentPrefix|] == UnknownEnvironmentPrefix &&
            text[|UnknownEnvironmentPrefix|..] == EnvText(env)
    ensures env == None ==> GetArnFromEnvironment(env).error.text == "Unknown environment: None"
  {
  }

  // ---------------------------------------------------------------------
  // The chain

  /** A base64 failure is raised (wrapped by `raise_error`); no later stage,
      the environment and the client cannot change that. */
  lemma DecodeFailureStopsChain(c: Codecs, sns: (Either<string>, string, string) -> Either<Json>,
                                env: Option<string>, event: Json)
    requires DecodeEvent(c, event).Left?
    ensures SendErrorToSns(c, sns, env, event) == Raised(Exception(DecodeEvent(c, event).error))
  {
  }

  /** An inflate failure is raised, and nothing after it runs. */
  lemma InflateFailureStopsChain(c: Codecs, sns: (Either<string>, string, string) -> Either<Json>,
                                 env: Option<string>, event: Json)
    requires DecodeEvent(c, event).Right?
    requires UnzipLogs(c, DecodeEvent(c, event).value).Left?
    ensures SendErrorToSns(c, sns, env, event) ==
            Raised(Exception(UnzipLogs(c, DecodeEvent(c, event).value).error))
  {
  }

  /** A batch-parse failure is raised, and nothing after it runs. */
  lemma ParseFailureStopsChain(c: Codecs, sns: (Either<string>, string, string) -> Either<Json>,
                               env: Option<string>, event: Json)
    requires DecodeEvent(c, event).Right?
    requires UnzipLogs(c, DecodeEvent(c, event).value).Right?
    requires ParseLogMessages(c, UnzipLogs(c, DecodeEvent(c, event).value).value).Left?
    ensures SendErrorToSns(c, sns, env, event) ==
            Raised(Exception(ParseLogMessages(c, UnzipLogs(c, DecodeEvent(c, event).value).value).error))
  {
  }

  /** A missing `logGroup` or `logStream` escapes `format_message_for_sns`
      as the bare exception, not wrapped by `raise_error`. */
  lemma FormatExceptionEscapes(c: Codecs, sns: (Either<string>, string, string) -> Either<Json>,
                               env: Option<string>, event: Json, batch: Json)
    requires DecodeEvent(c, event).Right?
    requires UnzipLogs(c, DecodeEvent(c, event).value).Right?
    requires ParseLogMessages(c, UnzipLogs(c, DecodeEvent(c, event).value).value) == Right(batch)
    requires FormatMessageForSns(batch).Raised?
    ensures SendErrorToSns(c, sns, env, event) == Raised(FormatMessageForSns(batch).exc)
  {
  }

  /** Once decode, inflate, parse or format has stopped the chain, the
      client is never consulted: any two clients and topics give the same
      raised outcome. */
  lemma StoppedChainNeverPublishes<A, B>(formatted: Py<Either<Notification>>,
                                         sns1: (A, string, string) -> Either<Json>, arn1: A,
                                         sns2: (B, string, string) -> Either<Json>, arn2: B,
                                         dumps: Json -> string)
    requires Stopped(formatted)
    ensures PublishStage(formatted, sns1, dumps, arn1).Raised?
    ensures PublishStage(formatted, sns1, dumps, arn1) == PublishStage(formatted, sns2, dumps, arn2)
  {
  }

  /** When the first four stages succeed, the client is called once with the
      topic as given, the serialised body and the subject; a client failure
      is raised, otherwise the message id (or its sentinel) is returned. */
  lemma PublishDecidesOutcome<A>(formatted: Py<Either<Notification>>, n: Notification,
                                 sns: (A, string, string) -> Either<Json>, dumps: Json -> string, arn: A)
    requires formatted == Returned(Right(n))
    ensures var call := sns(arn, dumps(n.body), n.subject);
            (call.Left? ==> PublishStage(formatted, sns, dumps, arn) == Raised(Exception(call.error))) &&
            (call.Right? ==> PublishStage(formatted, sns, dumps, arn) ==
                             Returned(GetOr(call.value, "messageID", JString(UnknownMessageId))))
  {
  }

  // ---------------------------------------------------------------------
  // Line 92: the environment lookup does not stop the chain

  /** As written, an unknown environment does not stop the chain: the
      client is still called, with the Left itself as topic, and if it
      answers the pipeline returns normally. */
  lemma UnknownEnvironmentStillCallsClient(formatted: Py<Either<Notification>>, n: Notification,
                                           sns: (Either<string>, string, string) -> Either<Json>,
                                           dumps: Json -> string, env: Option<string>)
    requires formatted == Returned(Right(n))
    requires GetArnFromEnvironment(env).Left?
    requires sns(GetArnFromEnvironment(env), dumps(n.body), n.subject).Right?
    ensures PublishStage(formatted, sns, dumps, GetArnFromEnvironment(env)).Returned?
  {
  }

  /** As written, for a client whose answer does not depend on the topic
      argument the outcome is the same whether or not the environment lookup
      failed. */
  lemma TopicBlindClientIgnoresEnvironment(c: Codecs, sns: (Either<string>, string, string) -> Either<Json>,
                                           env1: Option<string>, env2: Option<string>, event: Json)
    requires forall t1: Either<string>, t2: Either<string>, m: string, s: string :: sns(t1, m, s) == sns(t2, m, s)
    ensures SendErrorToSns(c, sns, env1, event) == SendErrorToSns(c, sns, env2, event)
  {
    match Formatted(c, event)
    case Raised(_) =>
    case Returned(Left(_)) =>
    case Returned(Right(n)) =>
      assert sns(GetArnFromEnvironment(env1), c.dumps(n.body), n.subject) ==
             sns(GetArnFromEnvironment(env2), c.dumps(n.body), n.subject);
  }

  /** A synthetic batch every stage accepts. */
  const SampleBatch := JObject([("logGroup", JString("/aws/lambda/my-fn")), ("logStream", JString("s")),
                                ("logEvents", JArray([]))])

  /** A synthetic event (not a real CloudWatch delivery); with the stub
      codecs below its payload is never really decoded. */
  const SampleEvent := JObject([("awslogs", JObject([("data", JString("H4sI"))]))])

  /** Stub codecs that ignore their input and always succeed. */
  function SampleCodecs(): Codecs
  {
    Codecs(s => Right([]), b => Right(b), b => Right(SampleBatch), s => Right(JNull), j => "{}")
  }

  lemma SampleEventDecodes()
    ensures DecodeEvent(SampleCodecs(), SampleEvent) == Right([])
  {
    FirstIndexIs(Keys(SampleEvent.fields), "awslogs", 0);
    FirstIndexIs(Keys(SampleEvent.fields[0].1.fields), "data", 0);
  }

  lemma SampleBatchParses()
    ensures ParseLogMessages(SampleCodecs(), []) == Right(SampleBatch)
  {
    var ks := Keys(SampleBatch.fields);
    assert ks == ["logGroup", "logStream", "logEvents"];
    FirstIndexIs(ks, "logEvents", 2);
    assert Subscript(SampleBatch, "logEvents") == Right(JArray([]));
    assert Put(SampleBatch.fields, "logEvents", JArray([])) == SampleBatch.fields;
  }

  lemma SampleBatchFormats()
    ensures FormatMessageForSns(SampleBatch).Returned?
  {
    var ks := Keys(SampleBatch.fields);
    assert ks == ["logGroup", "logStream", "logEvents"];
    FirstIndexIs(ks, "logGroup", 0);
    FirstIndexIs(ks, "logStream", 1);
    FirstIndexIs(ks, "logEvents", 2);
  }

  lemma SampleChainFormats()
    ensures !Stopped(Formatted(SampleCodecs(), SampleEvent))
  {
    SampleEventDecodes();
    SampleBatchParses();
    SampleBatchFormats();
  }

  /** A client that accepts every call and answers with an empty response. */
  function AcceptingClient<A>(): (A, string, string) -> Either<Json>
  {
    (t: A, m: string, s: string) => Right(JObject([]))
  }

  /** `PY_ENV` unset and a client that accepts the call: whenever the first
      four stages succeed (the synthetic event above is one such input), the code as
      written returns the default message id instead of raising the
      unknown-environment error. */
  lemma UnsetEnvironmentStillPublishes(formatted: Py<Either<Notification>>, n: Notification,
                                       dumps: Json -> string)
    requires formatted == Returned(Right(n))
    ensures PublishStage(formatted, AcceptingClient(), dumps, GetArnFromEnvironment(None))
            == Returned(JString(UnknownMessageId))
  {
    var sns: (Either<string>, string, string) -> Either<Json> := AcceptingClient();
    var empty: Json := JObject([]);
    assert sns(GetArnFromEnvironment(None), dumps(n.body), n.subject) == Right(empty);
    assert GetOr(empty, "messageID", JString(UnknownMessageId)) == JString(UnknownMessageId);
    PublishDecidesOutcome(formatted, n, sns, dumps, GetArnFromEnvironment(None));
  }

  /** The synthetic event with stub codecs, end to end: as written the handler returns normally. */
  lemma UnsetEnvironmentSampleReturns()
    ensures SendErrorToSns(SampleCodecs(), AcceptingClient(), None, SampleEvent)
            == Returned(JString(UnknownMessageId))
  {
    SampleChainFormats();
    var formatted := Formatted(SampleCodecs(), SampleEvent);
    UnsetEnvironmentStillPublishes(formatted, formatted.value.value, SampleCodecs().dumps);
  }

  // ---------------------------------------------------------------------
  // The intended chain

  /** Intended: an unknown environment stops the chain before the client,
      with the lookup's own message raised. */
  lemma IntendedStopsOnUnknownEnvironment(formatted: Py<Either<Notification>>,
                                          sns: (string, string, string) -> Either<Json>,
                                          dumps: Json -> string, env: Option<string>)
    requires !Stopped(formatted)
    requires GetArnFromEnvironment(env).Left?
    ensures PublishStageIntended(formatted, sns, dumps, GetArnFromEnvironment(env)) ==
            Raised(Exception(Message(UnknownEnvironmentPrefix + EnvText(env))))
  {
  }

  /** Intended: with a known environment the client gets the ARN string, and
      for a client that treats that string as the written code's client
      treats the Right holding it, both chains agree. */
  lemma IntendedAgreesOnKnownEnvironment(formatted: Py<Either<Notification>>,
                                         sns: (string, string, string) -> Either<Json>,
                                         written: (Either<string>, string, string) -> Either<Json>,
                                         dumps: Json -> string, arn: string)
    requires forall m: string, s: string :: written(Right(arn), m, s) == sns(arn, m, s)
    ensures PublishStageIntended(formatted, sns, dumps, Right(arn)) ==
            PublishStage(formatted, written, dumps, Right(arn))
  {
    match formatted
    case Raised(_) =>
    case Returned(Left(_)) =>
    case Returned(Right(n)) =>
      assert written(Right(arn), dumps(n.body), n.subject) == sns(arn, dumps(n.body), n.subject);
  }

  /** Intended: whatever stops the first four stages stops both chains the
      same way. */
  lemma IntendedKeepsEarlierFailures(formatted: Py<Either<Notification>>,
                                     sns: (string, string, string) -> Either<Json>,
                                     written: (Either<string>, string, string) -> Either<Json>,
                                     dumps: Json -> string, arn: Either<string>)
    requires Stopped(formatted)
    ensures PublishStageIntended(formatted, sns, dumps, arn) == PublishStage(formatted, written, dumps, arn)
  {
  }
}
