/**
 * Pipeline stages and their wire form.
 *
 * Each chain method of the aggregator pushes one JavaScript object with a
 * single key, the operator name (`$match`, `$group`, ...), whose value is the
 * caller's argument; `$lookup` is the one stage whose value the builder
 * assembles itself, an object with the keys `from`, `localField`,
 * `foreignField` and `as`, in that order. Here a stage is a tagged value,
 * `ToWire` renders it to that single-key object, and `FromWire` reads one
 * back, so that the wire form is proved to lose nothing.
 */
module Stages {
  import opened Wrappers
  import opened Values

  /** One aggregation stage, as appended by one chain method. */
  datatype Stage =
    | Match(condition: Value)
    | Group(grouping: Value)
    | Sort(order: Value)
    | Project(fields: Value)
    | Lookup(from: Value, localField: Value, foreignField: Value, asField: Value)
    | Unwind(path: Value)
    | AddFields(newFields: Value)

  /** The operator key a stage is stored under. */
  function Tag(s: Stage): (t: string)
    ensures |t| > 1 && t[0] == '$'
  {
    match s
    case Match(_) => "$match"
    case Group(_) => "$group"
    case Sort(_) => "$sort"
    case Project(_) => "$project"
    case Lookup(_, _, _, _) => "$lookup"
    case Unwind(_) => "$unwind"
    case AddFields(_) => "$addFields"
  }

  /** The object a chain method pushes: one key, the stage's tag, holding its argument. */
  function ToWire(s: Stage): (v: Value)
    ensures v.Obj? && |v.props| == 1 && v.props[0].0 == Tag(s)
  {
    var payload :=
      match s
      case Match(c) => c
      case Group(g) => g
      case Sort(o) => o
      case Project(f) => f
      case Lookup(from, local, foreign, out) =>
        Obj([("from", from), ("localField", local), ("foreignField", foreign), ("as", out)])
      case Unwind(p) => p
      case AddFields(f) => f;
    Obj([(Tag(s), payload)])
  }

  /**
   * Reads a single-key stage object back into a stage; anything else (not an
   * object, several keys, an unknown operator, a malformed `$lookup` record)
   * is not one of the builder's stages.
   */
  function FromWire(v: Value): (r: Option<Stage>)
    ensures r.Some? ==> ToWire(r.value) == v
  {
    match v
    case Obj(props) =>
      if |props| != 1 then None
      else
        var key := props[0].0;
        var payload := props[0].1;
        if key == "$match" then Some(Match(payload))
        else if key == "$group" then Some(Group(payload))
        else if key == "$sort" then Some(Sort(payload))
        else if key == "$project" then Some(Project(payload))
        else if key == "$unwind" then Some(Unwind(payload))
        else if key == "$addFields" then Some(AddFields(payload))
        else if key == "$lookup" then
          match payload
          case Obj(fs) =>
            if |fs| == 4 && fs[0].0 == "from" && fs[1].0 == "localField"
               && fs[2].0 == "foreignField" && fs[3].0 == "as"
            then
              assert fs == [fs[0], fs[1], fs[2], fs[3]];
              Some(Lookup(fs[0].1, fs[1].1, fs[2].1, fs[3].1))
            else None
          case _ => None
        else None
    case _ => None
  }

  /** Rendering a stage and reading it back gives the same stage. */
  lemma WireRoundTrip(s: Stage)
    ensures FromWire(ToWire(s)) == Some(s)
  {
  }

  /** Two stages with the same wire form are the same stage. */
  lemma WireInjective(s: Stage, s': Stage)
    requires ToWire(s) == ToWire(s')
    ensures s == s'
  {
    WireRoundTrip(s);
    WireRoundTrip(s');
  }

  /** The array handed to the execution engine: each stage rendered, in order. */
  function WirePipeline(p: seq<Stage>): (w: seq<Value>)
    ensures |w| == |p|
    ensures forall i :: 0 <= i < |p| ==> w[i] == ToWire(p[i])
  {
    if p == [] then [] else [ToWire(p[0])] + WirePipeline(p[1..])
  }

  /** Reads a whole wire array back; it fails as soon as one element is not a stage. */
  function ParsePipeline(w: seq<Value>): (r: Option<seq<Stage>>)
    ensures r.Some? ==> WirePipeline(r.value) == w
  {
    if w == [] then Some([])
    else
      match FromWire(w[0])
      case None => None
      case Some(s) =>
        match ParsePipeline(w[1..])
        case None => None
        case Some(rest) => Some([s] + rest)
  }

  /** Every pipeline survives the trip to the wire and back. */
  lemma {:induction false} PipelineRoundTrip(p: seq<Stage>)
    ensures ParsePipeline(WirePipeline(p)) == Some(p)
  {
    if p != [] {
      WireRoundTrip(p[0]);
      PipelineRoundTrip(p[1..]);
      assert WirePipeline(p)[1..] == WirePipeline(p[1..]);
      assert [p[0]] + p[1..] == p;
    }
  }

  /** Rendering distributes over concatenation: a pushed stage shows up as one pushed object. */
  lemma WirePipelineAppend(p: seq<Stage>, q: seq<Stage>)
    ensures WirePipeline(p + q) == WirePipeline(p) + WirePipeline(q)
  {
  }
}
