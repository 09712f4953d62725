# error_parsing — a Dafny model of a log-to-alert Lambda

`error_parsing.py` turns an AWS CloudWatch Logs subscription event into an
SNS alert. It base64-decodes `awslogs.data` and gunzips it. It parses the
batch as JSON, repairs each log event's `message` by cutting it at its first
`{`, and parses that JSON. It then formats a `(subject, body)` notification
naming the Lambda, resolves the SNS topic ARN from `PY_ENV`, and publishes.
The stages are chained with pymonad's `Either` (`.then`, `.either`). A final
Left is raised as an exception; a final Right is returned.

The model is pure, as the source is:

- `monad.dfy` (`Monad`): `Either<T>` (Left/Right), `Py<T>` (a Python call
  returns or raises), `Then` for `.then`, and `Unwrap` for
  `.either(raise_error, identity)`. It also has `MapAll` for `list(map(f, xs))`
  when `f` may raise.
- `text.dfy` (`Text`): `IndexOf` for `seq.index`, and `Split`/`Join` for
  `str.split('/')`, with the round trip between them.
- `json_value.dfy` (`JsonValue`): JSON values as Python holds them, with dicts
  kept as ordered key/value lists. It also has `d[key]`, pydash
  `get(d, key, default)`, and the `{**d, key: v}` update.
- `error_parsing.dfy` (`ErrorParsing`): the stages and the chain.
- `error_parsing_props.dfy` (`ErrorParsingProps`): the properties of the
  pipeline.

Python exceptions are modelled in two layers. A stage that catches its own
exceptions (`decode_event`, `unzip_logs`, `parse_log_messages`, `publish`)
returns `Left(fault)`. `format_message_for_sns` has no `try`, and `.then`
does not catch either. So a missing `logGroup` or `logStream` escapes the
chain as `Raised(fault)`, not wrapped by `raise_error`.

The library calls are parameters. Base64, zlib and JSON are the `Codecs`
record of functions, each returning an `Either`. The SNS client is a function
from `(TopicArn, Message, Subject)` to an `Either` response. The value of
`PY_ENV` is an `Option<string>`.

`SendErrorToSns` models the chain as written (see Findings). At line 92,
`get_arn_from_environment()` is evaluated whether or not an earlier stage
failed, and its `Either` is passed to `publish` as `arn`. So the client's
type for the topic argument is `Either<string>`. `SendErrorToSnsIntended`
is the corrected chain, where an unknown environment stops it before the
client is called. The lemmas relate the two.

Points where the code's behaviour may be unexpected (the model follows the
code):

- A message without `{` fails with Python's `ValueError`, caught as a Left.
- `format_message_for_sns` is not total: a missing key raises past the chain.
- All events are repaired before any is parsed. So a repair failure is
  reported even when an earlier event would not parse.
- An unknown environment does not stop the chain.

## Model

| member | source | states |
|---|---|---|
| `Monad.Unwrap` | error_parsing.py:106-110 | Only a returned Right gives a normal return, and it is that Right's value unchanged (`identity`). A returned Left is raised as `Exception(reason)` (`raise_error`). An exception already escaping passes through unchanged. |
| `Monad.ThenAfterStop` | error_parsing.py:87-92 | Once a Left is returned or an exception escapes, `.then` does not apply the next stage. The chain stays stopped with that same fault. |
| `Monad.ThenOnRight` | error_parsing.py:87-92 | On a Right, the next stage receives exactly the Right's value. |
| `Monad.MapAll` | error_parsing.py:35-36 | `list(map(f, xs))` succeeds iff `f` succeeds on every element. Then the result has the same length and order, and element k is `f(xs[k])`. Otherwise the error is that of the first element that fails. |
| `Monad.MapAllFirstFailure` | error_parsing.py:35-36 | When element j is the first to fail, `list(map(f, xs))` fails with exactly element j's error. |
| `Text.IndexOf` | error_parsing.py:43 | `index` finds nothing iff the item is absent. Otherwise it gives a position holding the item with no earlier occurrence. |
| `Text.SplitCount` | error_parsing.py:50 | `split('/')` gives one more piece than there are `/` in the string. |
| `Text.SplitPiecesHaveNoSeparator` | error_parsing.py:50 | No piece of `split('/')` contains `/`. |
| `Text.JoinSplit` | error_parsing.py:50 | Joining the pieces with `/` gives the original string back. |
| `Text.SplitJoin` | error_parsing.py:50 | Splitting a `/`-join of `/`-free pieces gives the pieces back. |
| `JsonValue.Subscript` | error_parsing.py:42 | `d[key]` succeeds iff `d` is a dict holding `key`, and then gives the stored value. A dict without the key raises KeyError(key); any other value raises TypeError. |
| `JsonValue.Put` | error_parsing.py:37 | After `{**d, key: v}`, `key` maps to `v`. An existing key keeps its place; a new key is appended. Every other key keeps its value. |
| `JsonValue.GetOr` | error_parsing.py:69 | pydash `get(resp, key, default)` gives the stored value when `resp` is a dict holding `key`, and `default` otherwise. |
| `ErrorParsing.AwslogsData` | error_parsing.py:20 | `get(event, "awslogs.data")` is present iff `event["awslogs"]["data"]` exists, and then it is that value. |
| `ErrorParsing.DecodeEvent` | error_parsing.py:18-23 | A string at `awslogs.data` is always handed to the base64 codec, and the result is the codec's; success needs such a string. A missing, null or non-string value is a TypeError Left. |
| `ErrorParsing.Iterate` | error_parsing.py:35 | Iterating `data["logEvents"]` gives a list's items unchanged, one element per string character or dict key, and a TypeError for any other value. |
| `ErrorParsing.FixJsonLogMessage` | error_parsing.py:41-44 | A failing `entry["message"]` is passed on. A message that is neither string nor list raises AttributeError. A success keeps the message's type: a string message gives a string, a list message a list (what is cut is stated by `FixKeepsSuffixFromFirstBrace` and `FixCutsListAtFirstBrace`). |
| `ErrorParsingProps.FixKeepsSuffixFromFirstBrace` | error_parsing.py:41-44 | A string message without `{` gives ValueError. Otherwise the repair is a non-empty suffix of the message that starts with `{`, and no `{` occurs before that suffix. |
| `ErrorParsingProps.FixCutsListAtFirstBrace` | error_parsing.py:41-44 | A list message without a `"{"` element gives ValueError. Otherwise the repair is a non-empty tail of the list that starts with `"{"`, and no `"{"` occurs before that tail. |
| `ErrorParsingProps.RepairDropsNoise` | error_parsing.py:41-44 | Brace-free noise followed by text opening with `{` is repaired to exactly that text. |
| `ErrorParsingProps.RepairDropsPrefixNoise` | error_parsing.py:41-44 | `"prefix-noise{\"a\":1}"` is repaired to `{"a":1}`. |
| `ErrorParsingProps.RepairRefusesPlainText` | error_parsing.py:43 | `"no braces here"` fails with ValueError. |
| `ErrorParsing.ParseJsonLogMessage` | error_parsing.py:46-47 | A repaired string is parsed by `json.loads`. A repaired list is a TypeError. |
| `ErrorParsing.ParseLogMessages` | error_parsing.py:32-39 | A batch that does not parse gives that parse's Left. A success is a dict with the same keys, in the same order, as the parsed batch, and that batch has `logEvents`. |
| `ErrorParsingProps.ParseLogMessagesReplacesOnlyLogEvents` | error_parsing.py:34-37 | The batch succeeds iff every event repairs and every repaired event parses. Then every key other than `logEvents` keeps its place and value. `logEvents` becomes a list of the same length and order, whose element k is the parse of repaired event k. |
| `ErrorParsingProps.MessageWithoutBraceFailsBatch` | error_parsing.py:35-39 | One string message without `{` fails the whole batch (all or nothing, no partial `logEvents`). |
| `ErrorParsingProps.FirstRepairFailureWins` | error_parsing.py:35-36 | The batch fails with the first repair failure, before any event is parsed. |
| `ErrorParsingProps.FirstParseFailureWins` | error_parsing.py:36 | With every event repaired, the batch fails with the first parse failure. |
| `ErrorParsing.LambdaName` | error_parsing.py:50 | With at least three `/` in `logGroup`, the name is piece 3 of `split('/')` and contains no `/`. Otherwise it is `Unknown Lambda name.`. |
| `ErrorParsingProps.LambdaNameOfPath` | error_parsing.py:50 | For a `logGroup` joined from at least four `/`-free pieces, the name is the fourth piece. |
| `ErrorParsingProps.LambdaNameOfExamplePath` | error_parsing.py:50 | `/aws/lambda/my-fn/extra` names `my-fn`. |
| `ErrorParsingProps.LambdaNameOfShortGroup` | error_parsing.py:50 | `short` gives the `Unknown Lambda name.` sentinel. |
| `ErrorParsing.FormatMessageForSns` | error_parsing.py:49-57 | It never returns a Left. It returns iff `logGroup` is a string and `logStream` and `logEvents` exist. A missing `logGroup` raises its KeyError. |
| `ErrorParsingProps.FormatCopiesBatchFields` | error_parsing.py:50-57 | The subject is `Lambda Error for ` followed by the name. The body has the keys `lambdaName`, `logGroup`, `logStream`, `messages`, in that order, holding the name and the batch's `logGroup`, `logStream` and `logEvents` unchanged. |
| `ErrorParsing.Publish` | error_parsing.py:59-72 | The client receives `arn` exactly as passed. A client failure is the Left. A response is Right of its `messageID`, or Right of `unknown message ID` when it has none. |
| `ErrorParsing.GetArnFromEnvironment` | error_parsing.py:74-83 | The result is a Right iff the environment is `qa`, `stage` or `prod`. Otherwise it is a Left with the message `Unknown environment: ` followed by the value (`None` when unset). |
| `ErrorParsingProps.KnownEnvironmentsHaveDistinctTopics` | error_parsing.py:76-81 | `qa`, `stage` and `prod` give their fixed ARNs (`qa` gives the dev topic), and the three ARNs differ. |
| `ErrorParsingProps.UnknownEnvironmentNamesValue` | error_parsing.py:82-83 | Any other value, or none, gives a Left whose message is the prefix followed by the value as Python prints it. |
| `ErrorParsing.Formatted` | error_parsing.py:88-91 | The chain up to formatting only continues when decode, inflate and parse each returned a Right. Its outcome is then format's outcome on the parsed batch. |
| `ErrorParsing.PublishStage` | error_parsing.py:92-93 | The client receives `arn` as given. A stopped chain always raises. Otherwise the outcome is a normal return iff the client answers with a Right. |
| `ErrorParsing.SendErrorToSns` | error_parsing.py:86-94 | A stopped chain always raises. Otherwise the handler returns normally iff the client, called with the lookup's Either as topic, answers with a Right. |
| `ErrorParsingProps.DecodeFailureStopsChain` | error_parsing.py:87-93 | A decode Left is raised as `Exception(e)`, whatever the later stages, the environment or the client. |
| `ErrorParsingProps.InflateFailureStopsChain` | error_parsing.py:25-30 | An inflate Left is raised as `Exception(e)` and nothing after it matters. |
| `ErrorParsingProps.ParseFailureStopsChain` | error_parsing.py:32-39 | A batch-parse Left is raised as `Exception(e)` and nothing after it matters. |
| `ErrorParsingProps.FormatExceptionEscapes` | error_parsing.py:49-50 | An exception in formatting escapes the handler as itself, not wrapped by `raise_error`. |
| `ErrorParsingProps.StoppedChainNeverPublishes` | error_parsing.py:87-92 | Once the first four stages have stopped, every client and every topic give the same raised outcome: the client is never consulted. |
| `ErrorParsingProps.PublishDecidesOutcome` | error_parsing.py:92-93 | After formatting succeeds, a client failure is raised. Otherwise the handler returns the response's `messageID`, or its sentinel. |
| `ErrorParsingProps.UnknownEnvironmentStillCallsClient` | error_parsing.py:92 | As written, an unknown environment does not stop the chain. If the client answers the call made with the Left as topic, the handler returns normally. |
| `ErrorParsingProps.TopicBlindClientIgnoresEnvironment` | error_parsing.py:92 | As written, for a client that ignores its topic argument, the outcome is the same for every environment, known or not. |
| `ErrorParsingProps.UnsetEnvironmentStillPublishes` | error_parsing.py:92 | As written, with `PY_ENV` unset and an accepting client, every successfully formatted batch ends in a normal return of `unknown message ID` instead of a raise. |
| `ErrorParsingProps.UnsetEnvironmentSampleReturns` | error_parsing.py:92 | A synthetic event (`SampleEvent`) with stub codecs (`SampleCodecs`), with `PY_ENV` unset and an accepting client, returns `unknown message ID` from the handler. |
| `ErrorParsing.PublishStageIntended` | error_parsing.py:92-93 | In the intended stage, a stopped chain or a Left lookup always raises. A normal return needs a Right lookup and a client answer to the bare ARN inside it. |
| `ErrorParsing.SendErrorToSnsIntended` | error_parsing.py:86-94 | In the intended chain, an unknown environment always raises, and so does a stopped chain. |
| `ErrorParsingProps.IntendedStopsOnUnknownEnvironment` | error_parsing.py:92 | In the intended chain, an unknown environment raises `Exception("Unknown environment: …")` before the client is called. |
| `ErrorParsingProps.IntendedAgreesOnKnownEnvironment` | error_parsing.py:92 | For a Right topic, the intended stage and the written stage agree when the client treats the ARN as the written code's client treats the Right holding it. |
| `ErrorParsingProps.IntendedKeepsEarlierFailures` | error_parsing.py:88-91 | Failures of the first four stages end the intended and the written stage identically. |

## Left out

- Base64 decoding (section 4 of RFC 4648), gzip inflation (RFC 1952 over RFC 1951) and JSON parsing and serialisation (RFC 8259) are library calls. They are the abstract `Codecs` functions. The decode/inflate round trip is a library guarantee and is not stated.
- UnzipLogs has no contract of its own, because its only content is the `zlib.decompress` call. Its effect on the chain is stated by `InflateFailureStopsChain`.
- The SNS client (`boto3.client('sns')`, line 96) and the network `publish` call are a function parameter. Only the response lookup with its default is modelled. Whether the client library's parameter validation would accept an `Either` as `TopicArn` is outside the model. The `Either` is passed for every environment, a known one included (as `Right(arn)`); a client that insists on a string `TopicArn` would then raise for every formatted batch, which is likewise not modelled.
- Reading `os.environ` is replaced by the environment value as a parameter.
- The `handler` glue, the `@curry` partial application, the module-level client and `event_stub` (lines 12-16, 96-104) are not modelled; `SendErrorToSns` takes the client and the environment directly.
- pydash's generic deep-path `get` is replaced by the two fixed lookups the source makes (`awslogs.data` and `messageID`). The `'[3]'` path is replaced by indexing the `split` result.
- JSON numbers are integers; floats are not distinguished because the pipeline only passes them through.
- Faults record the exception's kind (and a missing key's name), not Python's message text.

## Findings

| source | as written | input that shows it | evidently intended | confidence | as-written member | corrected member |
|---|---|---|---|---|---|---|
| error_parsing.py:92 | `get_arn_from_environment()` is evaluated eagerly, and its `Either` (not the ARN string) is passed to `publish` as `arn`. An unknown or unset `PY_ENV` therefore does not stop the chain: the client is still called, with the Left as its topic. A known environment also hands the client `Right(arn)` rather than the string. | `PY_ENV` unset, an event the first four stages accept (`SampleEvent` with `SampleCodecs`), and a client that accepts the call. The handler returns `unknown message ID` instead of raising. | An unknown environment stops the chain before publishing, raising `Unknown environment: None`. The client receives the bare ARN string. | high; not executed | `ErrorParsingProps.UnsetEnvironmentSampleReturns` | `ErrorParsingProps.IntendedStopsOnUnknownEnvironment` |
