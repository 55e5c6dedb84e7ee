/** The multi-destination log stream of packages/logger/src/stream.ts: a
    list of destinations kept newest first, each tagged with an id from a
    counter, and a write that routes a formatted record to the first
    destination that takes it, or else to stderr/stdout by level. */
module LoggerStream {
  import opened Wrappers

  /** A writable stream, known only by its identity. */
  type StreamRef = nat

  /** The `level` field of a destination as given: a number, a level name,
      or anything else (missing included). */
  datatype LevelField = Num(n: int) | Name(name: string) | Other

  /** What `add` accepts: a bare writable (an object with a `write`
      function), or a descriptor with the fields routing looks at. */
  datatype DestInput =
    | Writable(writable: StreamRef)
    | Descriptor(app: Option<string>, level: LevelField, levelVal: Option<int>, stream: Option<StreamRef>)

  /** A stored destination: the copy `add` makes, with its numeric level and id. */
  datatype Dest = Dest(id: nat, app: Option<string>, level: int, stream: Option<StreamRef>)

  /** The output of `format(data)`, taken as given. */
  datatype Info = Info(app: Option<string>, level: int, result: string)

  datatype Sink = Stdout | Stderr | To(ref: StreamRef)

  /** What `write` does: one `stream.write(info.result)`, or the TypeError
      raised by reading a property of a matched destination's absent stream. */
  datatype Written = Wrote(sink: Sink, payload: string) | Threw

  const DefaultLevel := 30
  const StderrLevel := 40

  /** The routing fields of the copy `add` finally stores. */
  datatype Normal = Normal(app: Option<string>, level: int, stream: Option<StreamRef>)

  /** How many more times `add` re-enters itself for `d`. */
  function Depth(d: DestInput): (n: nat) {
    match d
    case Writable(_) => 3
    case Descriptor(_, level, levelVal, _) =>
      if levelVal.Some? then 2 else if level.Name? then 1 else 0
  }

  /** The level normalisation of `add`, re-entry for re-entry: a writable is
      wrapped as `{stream: dest}`, a numeric `levelVal` becomes `level`, a
      level name is looked up in `levels`, a number is kept and anything
      else becomes 30. */
  function Normalize(d: DestInput, levels: map<string, int>): (r: Normal)
    ensures d.Writable? ==> r == Normal(None, DefaultLevel, Some(d.writable))
    ensures d.Descriptor? ==> r.app == d.app && r.stream == d.stream
    ensures d.Descriptor? && d.levelVal.Some? ==> r.level == d.levelVal.value
    ensures d.Descriptor? && d.levelVal.None? && d.level.Num? ==> r.level == d.level.n
    ensures d.Descriptor? && d.levelVal.None? && d.level.Name? ==>
              r.level == (if d.level.name in levels then levels[d.level.name] else DefaultLevel)
    ensures d.Descriptor? && d.levelVal.None? && d.level.Other? ==> r.level == DefaultLevel
    decreases Depth(d)
  {
    match d
    case Writable(w) => Normalize(Descriptor(None, Other, None, Some(w)), levels)
    case Descriptor(app, level, levelVal, stream) =>
      if levelVal.Some? then Normalize(Descriptor(app, Num(levelVal.value), None, stream), levels)
      else match level
        case Name(n) => Normalize(Descriptor(app, if n in levels then Num(levels[n]) else Other, None, stream), levels)
        case Num(x) => Normal(app, x, stream)
        case Other => Normal(app, DefaultLevel, stream)
  }

  function Stored(n: Normal, id: nat): (d: Dest) {
    Dest(id, n.app, n.level, n.stream)
  }

  /** Destinations carry distinct ids, decreasing from the front of the
      list (the newest) to its back, all below the counter. */
  predicate IdsDescending(s: seq<Dest>, counter: nat) {
    && (forall i, j :: 0 <= i < j < |s| ==> s[i].id > s[j].id)
    && (forall i :: 0 <= i < |s| ==> s[i].id < counter)
  }

  /** The list the constructor builds from `inputs`, added in order to an
      empty list with the counter at 0. */
  function Built(inputs: seq<DestInput>, levels: map<string, int>): (s: seq<Dest>)
    ensures |s| == |inputs|
    decreases |inputs|
  {
    if inputs == [] then []
    else [Stored(Normalize(inputs[|inputs| - 1], levels), |inputs| - 1)] + Built(inputs[..|inputs| - 1], levels)
  }

  /** The last input ends up first: entry `i` is input `n - 1 - i` with
      id `n - 1 - i`, so ids are distinct and grow in insertion order. */
  lemma {:induction false} BuiltOrder(inputs: seq<DestInput>, levels: map<string, int>)
    ensures |Built(inputs, levels)| == |inputs|
    ensures forall i :: 0 <= i < |inputs| ==>
      Built(inputs, levels)[i] == Stored(Normalize(inputs[|inputs| - 1 - i], levels), |inputs| - 1 - i)
    ensures IdsDescending(Built(inputs, levels), |inputs|)
    decreases |inputs|
  {
    if inputs != [] {
      var pre := inputs[..|inputs| - 1];
      BuiltOrder(pre, levels);
      var s := Built(inputs, levels);
      forall i | 0 <= i < |inputs|
        ensures s[i] == Stored(Normalize(inputs[|inputs| - 1 - i], levels), |inputs| - 1 - i)
      {
        if i > 0 {
          assert s[i] == Built(pre, levels)[i - 1];
          assert pre[|pre| - 1 - (i - 1)] == inputs[|inputs| - 1 - i];
        }
      }
    }
  }

  /** Whether `write` stops at `d`: same app and a level at or below the
      record's. */
  predicate Accepts(d: Dest, info: Info)
    ensures Accepts(d, info) ==> d.app == info.app
    ensures d.level > info.level ==> !Accepts(d, info)
  {
    d.app == info.app && d.level <= info.level
  }

  /** The position of the first destination that takes `info`. */
  function Select(s: seq<Dest>, info: Info): (r: Option<nat>)
    ensures r.Some? ==> r.value < |s| && Accepts(s[r.value], info)
    ensures r.Some? ==> forall j :: 0 <= j < r.value ==> !Accepts(s[j], info)
    ensures r.None? ==> forall j :: 0 <= j < |s| ==> !Accepts(s[j], info)
  {
    if s == [] then None
    else if Accepts(s[0], info) then Some(0)
    else match Select(s[1..], info)
      case Some(i) => Some(i + 1)
      case None => None
  }

  /** What `write` does with `info`: the first destination that takes it
      decides (its stream, or a TypeError when it has none); with none, a
      level of 40 and above goes to stderr and the rest to stdout. */
  function Route(s: seq<Dest>, info: Info): (w: Written)
    ensures w.Wrote? ==> w.payload == info.result
  {
    match Select(s, info)
    case Some(i) => if s[i].stream.Some? then Wrote(To(s[i].stream.value), info.result) else Threw
    case None => Wrote(if info.level >= StderrLevel then Stderr else Stdout, info.result)
  }

  /** The three outcomes of `write`, each with the condition that leads to
      it: a TypeError exactly when the first destination that takes the
      record has no stream, the default streams exactly when none takes it,
      and otherwise the first taker's stream. */
  lemma RouteFacts(s: seq<Dest>, info: Info)
    ensures Route(s, info).Threw? <==>
      exists i :: 0 <= i < |s| && Accepts(s[i], info) && s[i].stream.None? && FirstTaker(s, info, i)
    ensures Route(s, info) == Wrote(Stderr, info.result) <==>
      (forall i :: 0 <= i < |s| ==> !Accepts(s[i], info)) && info.level >= StderrLevel
    ensures Route(s, info) == Wrote(Stdout, info.result) <==>
      (forall i :: 0 <= i < |s| ==> !Accepts(s[i], info)) && info.level < StderrLevel
    ensures forall i, r :: 0 <= i < |s| && FirstTaker(s, info, i) && s[i].stream == Some(r) ==>
      Route(s, info) == Wrote(To(r), info.result)
    ensures Route(s, info).Wrote? ==> Route(s, info).payload == info.result
  {
    match Select(s, info)
    case Some(k) =>
      assert FirstTaker(s, info, k);
    case None =>
  }

  /** `i` is the first position whose destination takes `info`. */
  predicate FirstTaker(s: seq<Dest>, info: Info, i: nat)
    requires i < |s|
  {
    Accepts(s[i], info) && forall j :: 0 <= j < i ==> !Accepts(s[j], info)
  }

  /** For a list built by the constructor, the destination chosen is the
      one added last among those that take the record. */
  lemma LatestAddedWins(inputs: seq<DestInput>, levels: map<string, int>, info: Info, i: nat)
    requires Select(Built(inputs, levels), info) == Some(i)
    ensures i < |inputs|
    ensures Accepts(Stored(Normalize(inputs[|inputs| - 1 - i], levels), |inputs| - 1 - i), info)
    ensures forall m :: |inputs| - 1 - i < m < |inputs| ==>
      !Accepts(Stored(Normalize(inputs[m], levels), m), info)
  {
    var s := Built(inputs, levels);
    var n := |inputs|;
    BuiltLength(inputs, levels);
    BuiltEntry(inputs, levels, i);
    forall m | n - 1 - i < m < n
      ensures !Accepts(Stored(Normalize(inputs[m], levels), m), info)
    {
      BuiltEntry(inputs, levels, n - 1 - m);
    }
  }

  /** The constructor's list has one entry per input. */
  lemma BuiltLength(inputs: seq<DestInput>, levels: map<string, int>)
    ensures |Built(inputs, levels)| == |inputs|
  {
    BuiltOrder(inputs, levels);
  }

  /** Entry `j` of the constructor's list, one position at a time. */
  lemma BuiltEntry(inputs: seq<DestInput>, levels: map<string, int>, j: nat)
    requires j < |inputs|
    ensures |Built(inputs, levels)| == |inputs|
    ensures Built(inputs, levels)[j] == Stored(Normalize(inputs[|inputs| - 1 - j], levels), |inputs| - 1 - j)
  {
    BuiltOrder(inputs, levels);
  }

  /** The object the stream factory returns, with the closure's counter. */
  class Multistream {
    var counter: nat
    var streams: seq<Dest>
    var minLevel: int
    const levels: map<string, int>

    ghost predicate Valid()
      reads this
    {
      IdsDescending(streams, counter)
    }

    /** The factory: starts empty with `minLevel` 0 and adds the inputs in
        array order, so the last input is at the front; a missing array
        counts as empty. */
    constructor (given: Option<seq<DestInput>>, levels: map<string, int>)
      ensures Valid() && this.levels == levels
      ensures var inputs := if given.Some? then given.value else [];
        streams == Built(inputs, levels) && counter == |inputs|
        && minLevel == if inputs == [] then 0 else streams[0].level
    {
      var streamsArray := if given.Some? then given.value else [];
      this.levels := levels;
      counter := 0;
      streams := [];
      minLevel := 0;
      new;
      var i := 0;
      while i < |streamsArray|
        invariant 0 <= i <= |streamsArray|
        invariant Valid() && this.levels == levels
        invariant streams == Built(streamsArray[..i], levels) && counter == i
        invariant minLevel == if i == 0 then 0 else streams[0].level
      {
        assert streamsArray[..i + 1][..i] == streamsArray[..i];
        Add(streamsArray[i]);
        i := i + 1;
      }
      assert streamsArray[..i] == streamsArray;
    }

    /** `add`: stores a normalised copy of `dest` with the next id at the
        front of the list and sets `minLevel` to its level. */
    method Add(dest: DestInput)
      requires Valid()
      modifies this
      ensures Valid()
      ensures streams == [Stored(Normalize(dest, levels), old(counter))] + old(streams)
      ensures counter == old(counter) + 1
      ensures minLevel == Normalize(dest, levels).level
      decreases Depth(dest)
    {
      match dest {
        case Writable(w) =>
          Add(Descriptor(None, Other, None, Some(w)));
        case Descriptor(app, level, levelVal, stream) =>
          if levelVal.Some? {
            Add(Descriptor(app, Num(levelVal.value), None, stream));
          } else if level.Name? {
            var looked := if level.name in levels then Num(levels[level.name]) else Other;
            Add(Descriptor(app, looked, None, stream));
          } else {
            var n := if level.Num? then level.n else DefaultLevel;
            var d := Dest(counter, app, n, stream);
            counter := counter + 1;
            streams := [d] + streams;
            minLevel := streams[0].level;
          }
      }
    }

    /** `write` on a record already formatted into `info`. Nothing is
        changed. */
    method Write(info: Info) returns (w: Written)
      ensures w == Route(streams, info)
    {
      var stream: Option<StreamRef> := None;
      var i := 0;
      while i < |streams|
        invariant 0 <= i <= |streams|
        invariant stream.None? ==> forall j :: 0 <= j < i ==> !Accepts(streams[j], info)
        invariant stream.Some? ==> i < |streams| && Accepts(streams[i], info) && stream == streams[i].stream
        invariant stream.Some? ==> forall j :: 0 <= j < i ==> !Accepts(streams[j], info)
      {
        var dest := streams[i];
        if dest.app == info.app && dest.level <= info.level {
          stream := dest.stream;
          if stream.None? {
            // the metadata check reads a property of the absent stream
            return Threw;
          }
        }
        if stream.Some? {
          break;
        }
        i := i + 1;
      }
      var sink: Sink;
      if stream.Some? {
        sink := To(stream.value);
      } else if info.level >= StderrLevel {
        sink := Stderr;
      } else {
        sink := Stdout;
      }
      w := Wrote(sink, info.result);
    }
  }
}
