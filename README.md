# Aggregator: a verified model of a MongoDB aggregation-pipeline builder

`lib/aggregation.js` defines `Aggregator`, a fluent builder bound to one
Mongoose model. It holds an array `pipeline` of aggregation stages. Each of
the chain methods `match`, `group`, `sort`, `project`, `lookup`, `unwind` and
`addFields` pushes one single-key object (`{ $match: condition }`, ...) and
returns the builder itself. `execute` passes the array to
`model.aggregate(...).exec()` and resolves with its documents. If that call
rejects, `execute` throws a new error whose message is
`"Aggregation Error: "` followed by the original message.

The model has four modules:

- `Wrappers` (wrappers.dfy): `Option` and `Result`.
- `Values` (values.dfy): a JSON-like tree standing for the payloads that
  callers pass and the builder never inspects. Objects keep their key order.
- `Stages` (stages.dfy): a `Stage` datatype with one constructor per operator.
  `ToWire` renders a stage to the single-key object that the source pushes.
  `FromWire` and `ParsePipeline` read the wire form back, which proves that
  rendering loses nothing.
- `Aggregation` (aggregator.dfy): the class `Aggregator<M>` with fields
  `model` and `pipeline: seq<Stage>`. Its chain methods may modify only
  `pipeline` (`modifies this`pipeline`), so `model` stays unchanged by the
  frame itself. Each chain method states its new pipeline, its new wire array
  and that it returns `this`. `Execute` is specified by the function `Settle`.

The `lookup` arguments are typed as arbitrary values, not strings. The code
does not check them, so `{ from, localField, foreignField, as }` holds
whatever the caller passed. The Dafny field for `as` is called `asField`,
because `as` is a Dafny keyword.

## Model

| member | source | states |
|---|---|---|
| `Aggregation.Aggregator.constructor` | lib/aggregation.js:3-6 | the builder stores the given model handle and starts with an empty pipeline, whose wire array is empty |
| `Aggregation.Aggregator.Match` | lib/aggregation.js:9-12 | the pipeline becomes the old pipeline plus one `Match(condition)` at the end; the wire array gains exactly `{ $match: condition }`; returns the same builder; only `pipeline` is written |
| `Aggregation.Aggregator.Group` | lib/aggregation.js:15-18 | appends exactly one `Group(grouping)`, whose wire form is `{ $group: grouping }`; earlier stages untouched; returns the same builder |
| `Aggregation.Aggregator.Sort` | lib/aggregation.js:21-24 | appends exactly one `Sort(order)`, whose wire form is `{ $sort: order }`; earlier stages untouched; returns the same builder |
| `Aggregation.Aggregator.Project` | lib/aggregation.js:27-30 | appends exactly one `Project(fields)`, whose wire form is `{ $project: fields }`; earlier stages untouched; returns the same builder |
| `Aggregation.Aggregator.Lookup` | lib/aggregation.js:33-38 | appends exactly one `$lookup` stage; its record holds the keys `from`, `localField`, `foreignField` and `as`, in that order, bound to the four arguments; returns the same builder |
| `Aggregation.Aggregator.Unwind` | lib/aggregation.js:41-44 | appends exactly one `Unwind(path)`, whose wire form is `{ $unwind: path }`; earlier stages untouched; returns the same builder |
| `Aggregation.Aggregator.AddFields` | lib/aggregation.js:47-50 | appends exactly one `AddFields(fields)`, whose wire form is `{ $addFields: fields }`; earlier stages untouched; returns the same builder |
| `Aggregation.Aggregator.Wire` | lib/aggregation.js:55 | the array handed to `aggregate` has one element per stage and parses back to exactly the pipeline |
| `Aggregation.Aggregator.Execute` | lib/aggregation.js:53-59 | the result is `Settle` of what the engine returns for this model and the whole current wire array; the method has no `modifies` clause, so the builder is unchanged and can run again |
| `Aggregation.Settle` | lib/aggregation.js:54-58 | success passes the documents through unchanged; a rejection with a readable message fails with `AggregationError`, the model's name for the plain `Error` the handler throws, whose message is the prefix `"Aggregation Error: "` followed by exactly the original message text (`"undefined"` when the property is missing); a `null`/`undefined` rejection escapes as the TypeError thrown by reading `.message` |
| `Aggregation.SettleMissingMessage` | lib/aggregation.js:57 | a rejection without a `message` property becomes `"Aggregation Error: undefined"`, the same error as a rejection whose message is literally `"undefined"` |
| `Aggregation.SettleIgnoresKind` | lib/aggregation.js:56-57 | two rejections with the same message and different error kinds give the same result: the kind is discarded |
| `Aggregation.SettleKeepsMessage` | lib/aggregation.js:57 | wrapping is injective on the message text: equal wrapped errors came from messages that render to the same text |
| `Aggregation.ExampleChain` | test/aggregation.test.js:40-46 | a fresh builder chained through `match`, `group`, `sort` yields exactly the three stage objects in call order; executing it settles as `Settle` of the engine's answer on that array |
| `Stages.Tag` | lib/aggregation.js:10-48 | every stage key is a `$`-prefixed operator name |
| `Stages.ToWire` | lib/aggregation.js:10-48 | each stage renders to an object with exactly one key, the stage's tag |
| `Stages.FromWire` | lib/aggregation.js:10-48 | any object that parses as a stage is exactly that stage's wire form |
| `Stages.WireRoundTrip` | lib/aggregation.js:10-48 | parsing a rendered stage returns the same stage |
| `Stages.WireInjective` | lib/aggregation.js:10-48 | distinct stages have distinct wire forms |
| `Stages.WirePipeline` | lib/aggregation.js:55 | the submitted array has the pipeline's length, and position i holds the wire form of stage i |
| `Stages.ParsePipeline` | lib/aggregation.js:55 | an array that parses gives back a pipeline whose rendering is that array |
| `Stages.PipelineRoundTrip` | lib/aggregation.js:55 | every pipeline, rendered and parsed back, is unchanged: order and content are preserved |
| `Stages.WirePipelineAppend` | lib/aggregation.js:10-48 | rendering distributes over concatenation, so appending a stage appends exactly its object to the array |

## Left out

- The real `this.model.aggregate(this.pipeline).exec()` call, `async`/`await` and promises. The call becomes a function parameter of `Execute`, which gives what the promise settles with for a model and an array. `Execute` returns the settled result as a value rather than through a promise.
- Aliasing of the array handed to the engine. The source passes its own `pipeline` array, so a push made while an `execute` is pending could still be seen by the engine. The model passes an immutable snapshot.
- Aliasing of stage payloads. The source stores the caller's object by reference, so a change the caller makes to, say, a `match` condition before `execute` reaches the engine. The model stores immutable values and shows only the payload as it was passed.
- Payload values outside the JSON-like tree: RegExp, Date, ObjectId, functions and symbols are not expressible. JavaScript's ordering of integer-like object keys ahead of other keys is not modelled either; an object's keys are kept in the order given.
- Stage payload semantics, such as `$gte`, `$sum`, grouping and sorting of documents. These belong to the database engine, and the builder passes payloads through without reading them.
- Numbers in payloads are modelled as integers, not IEEE doubles, because the builder never computes with them.
- Messages that are present but not strings. A message is either a string or missing, so `MessageText` does not model how a template literal renders other values (a Symbol message would make the handler itself throw a TypeError).
- The identity and kind of a rejected error beyond its message. `Thrown.kind` is kept only to show that it is discarded.
- `paginate`, `search`, `facet` and `count`. `lib/aggregation.js` defines none of them, so there is no code to model.
- The database seeding, connection handling and logging in test/aggregation.test.js. Only the chain it builds is modelled, as `ExampleChain`.
