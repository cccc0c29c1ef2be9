/**
 * The aggregation builder.
 *
 * An `Aggregator` is bound to one model handle when it is built and owns an
 * append-only list of stages. Every chain method pushes exactly one stage at
 * the end of that list and hands back the same builder, so calls can be
 * chained. `Execute` submits the rendered list to the model's `aggregate`
 * and either passes the documents through or fails with one uniform
 * "Aggregation Error: " message.
 */
module Aggregation {
  import opened Wrappers
  import opened Values
  import opened Stages

  /**
   * What the execution engine's promise can reject with: a thrown object,
   * whose `message` property may be missing, or `null`/`undefined` itself.
   * `kind` stands for the error's class (network, validation, ...), which the
   * builder never looks at.
   */
  datatype Thrown =
    | Raised(kind: string, message: Option<string>)
    | RaisedNullish

  /**
   * How `execute` fails. `AggregationError` is the plain `Error` the handler
   * throws, carrying the prefixed message; the source defines no error class
   * of its own. Reading `.message` of a `null` or `undefined`
   * rejection throws a TypeError inside the handler itself, which escapes
   * unwrapped: that is `MessageReadError`.
   */
  datatype ExecError =
    | AggregationError(message: string)
    | MessageReadError

  const Prefix: string := "Aggregation Error: "

  /** How a template literal renders a message property: a missing one reads "undefined". */
  function MessageText(message: Option<string>): string
  {
    match message
    case Some(m) => m
    case None => "undefined"
  }

  /**
   * What `execute` settles with, given what the engine settled with:
   * documents pass through untouched, every rejection with a readable
   * message becomes one `AggregationError` carrying that message after the
   * fixed prefix.
   */
  function Settle<D>(outcome: Result<D, Thrown>): (r: Result<D, ExecError>)
    ensures r.Success? <==> outcome.Success?
    ensures outcome.Success? ==> r.value == outcome.value
    ensures outcome.Failure? && outcome.error.Raised? ==>
              r.error.AggregationError?
              && |r.error.message| >= |Prefix|
              && r.error.message[..|Prefix|] == Prefix
              && r.error.message[|Prefix|..] == MessageText(outcome.error.message)
    ensures outcome.Failure? && outcome.error.RaisedNullish? ==> r == Failure(MessageReadError)
  {
    match outcome
    case Success(docs) => Success(docs)
    case Failure(Raised(_, message)) => Failure(AggregationError(Prefix + MessageText(message)))
    case Failure(RaisedNullish) => Failure(MessageReadError)
  }

  /** The kind of the original error is discarded: only its message survives. */
  lemma SettleIgnoresKind<D>(kind: string, kind': string, message: Option<string>)
    ensures Settle<D>(Failure(Raised(kind, message))) == Settle<D>(Failure(Raised(kind', message)))
  {
  }

  /** Wrapping loses nothing of the message text: equal wrapped errors came from equal texts. */
  lemma SettleKeepsMessage<D>(m: Option<string>, m': Option<string>, kind: string)
    requires Settle<D>(Failure(Raised(kind, m))) == Settle<D>(Failure(Raised(kind, m')))
    ensures MessageText(m) == MessageText(m')
  {
  }

  /**
   * A rejection without a `message` property is reported as "undefined", and so
   * cannot be told apart from one whose message is literally "undefined".
   */
  lemma SettleMissingMessage<D>(kind: string)
    ensures Settle<D>(Failure(Raised(kind, None))) == Failure(AggregationError("Aggregation Error: undefined"))
    ensures Settle<D>(Failure(Raised(kind, None))) == Settle<D>(Failure(Raised(kind, Some("undefined"))))
  {
    assert Prefix + MessageText(None) == "Aggregation Error: undefined";
  }

  class Aggregator<M> {
    /** The model handle the builder was created for; no chain method writes it. */
    var model: M
    /** The stages appended so far, in call order. */
    var pipeline: seq<Stage>

    /** The array of single-key stage objects that `execute` hands to the engine. */
    function Wire(): (w: seq<Value>)
      reads this
      ensures |w| == |pipeline|
      ensures ParsePipeline(w) == Some(pipeline)
    {
      PipelineRoundTrip(pipeline);
      WirePipeline(pipeline)
    }

    constructor (model: M)
      ensures this.model == model
      ensures pipeline == [] && Wire() == []
    {
      this.model := model;
      pipeline := [];
    }

    /** Appends `{ $match: condition }`. */
    method Match(condition: Value) returns (builder: Aggregator<M>)
      modifies this`pipeline
      ensures builder == this
      ensures pipeline == old(pipeline) + [Stage.Match(condition)]
      ensures Wire() == old(Wire()) + [Obj([("$match", condition)])]
    {
      WirePipelineAppend(pipeline, [Stage.Match(condition)]);
      pipeline := pipeline + [Stage.Match(condition)];
      builder := this;
    }

    /** Appends `{ $group: grouping }`. */
    method Group(grouping: Value) returns (builder: Aggregator<M>)
      modifies this`pipeline
      ensures builder == this
      ensures pipeline == old(pipeline) + [Stage.Group(grouping)]
      ensures Wire() == old(Wire()) + [Obj([("$group", grouping)])]
    {
      WirePipelineAppend(pipeline, [Stage.Group(grouping)]);
      pipeline := pipeline + [Stage.Group(grouping)];
      builder := this;
    }

    /** Appends `{ $sort: order }`. */
    method Sort(order: Value) returns (builder: Aggregator<M>)
      modifies this`pipeline
      ensures builder == this
      ensures pipeline == old(pipeline) + [Stage.Sort(order)]
      ensures Wire() == old(Wire()) + [Obj([("$sort", order)])]
    {
      WirePipelineAppend(pipeline, [Stage.Sort(order)]);
      pipeline := pipeline + [Stage.Sort(order)];
      builder := this;
    }

    /** Appends `{ $project: fields }`. */
    method Project(fields: Value) returns (builder: Aggregator<M>)
      modifies this`pipeline
      ensures builder == this
      ensures pipeline == old(pipeline) + [Stage.Project(fields)]
      ensures Wire() == old(Wire()) + [Obj([("$project", fields)])]
    {
      WirePipelineAppend(pipeline, [Stage.Project(fields)]);
      pipeline := pipeline + [Stage.Project(fields)];
      builder := this;
    }

    /** Appends `{ $lookup: { from, localField, foreignField, as } }`. */
    method Lookup(from: Value, localField: Value, foreignField: Value, asField: Value)
      returns (builder: Aggregator<M>)
      modifies this`pipeline
      ensures builder == this
      ensures pipeline == old(pipeline) + [Stage.Lookup(from, localField, foreignField, asField)]
      ensures Wire() == old(Wire()) + [Obj([("$lookup", Obj([("from", from), ("localField", localField),
                                                            ("foreignField", foreignField), ("as", asField)]))])]
    {
      var s := Stage.Lookup(from, localField, foreignField, asField);
      WirePipelineAppend(pipeline, [s]);
      pipeline := pipeline + [s];
      builder := this;
    }

    /** Appends `{ $unwind: path }`. */
    method Unwind(path: Value) returns (builder: Aggregator<M>)
      modifies this`pipeline
      ensures builder == this
      ensures pipeline == old(pipeline) + [Stage.Unwind(path)]
      ensures Wire() == old(Wire()) + [Obj([("$unwind", path)])]
    {
      WirePipelineAppend(pipeline, [Stage.Unwind(path)]);
      pipeline := pipeline + [Stage.Unwind(path)];
      builder := this;
    }

    /** Appends `{ $addFields: fields }`. */
    method AddFields(fields: Value) returns (builder: Aggregator<M>)
      modifies this`pipeline
      ensures builder == this
      ensures pipeline == old(pipeline) + [Stage.AddFields(fields)]
      ensures Wire() == old(Wire()) + [Obj([("$addFields", fields)])]
    {
      WirePipelineAppend(pipeline, [Stage.AddFields(fields)]);
      pipeline := pipeline + [Stage.AddFields(fields)];
      builder := this;
    }

    /**
     * Submits the whole pipeline. `aggregate` stands for the model's
     * `aggregate(...).exec()`: what its promise settles with for this model
     * and this array. Nothing of the builder changes, so it can be run again.
     */
    method Execute<D>(aggregate: (M, seq<Value>) -> Result<D, Thrown>) returns (r: Result<D, ExecError>)
      ensures r == Settle(aggregate(model, Wire()))
    {
      r := Settle(aggregate(model, WirePipeline(pipeline)));
    }
  }

  /**
   * The chain the repository's test builds: users aged 30 or more, counted
   * per country, most populous country first, then executed.
   */
  method ExampleChain<M, D>(model: M, aggregate: (M, seq<Value>) -> Result<D, Thrown>)
    returns (wire: seq<Value>, result: Result<D, ExecError>)
    ensures wire == [
      Obj([("$match", Obj([("age", Obj([("$gte", Num(30))]))]))]),
      Obj([("$group", Obj([("_id", Str("$country")), ("count", Obj([("$sum", Num(1))]))]))]),
      Obj([("$sort", Obj([("count", Num(-1))]))])
    ]
    ensures ParsePipeline(wire).Some? && |ParsePipeline(wire).value| == 3
    ensures result == Settle(aggregate(model, wire))
  {
    var a := new Aggregator(model);
    var b := a.Match(Obj([("age", Obj([("$gte", Num(30))]))]));
    b := b.Group(Obj([("_id", Str("$country")), ("count", Obj([("$sum", Num(1))]))]));
    b := b.Sort(Obj([("count", Num(-1))]));
    wire := b.Wire();
    result := b.Execute(aggregate);
  }
}
