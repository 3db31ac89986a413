/**
 * Value types shared by the agent, the client and the schemas: optional and
 * fallible results, identifiers, JSON-like documents, orchestration states and
 * the dot-path splitting used by infrastructure overrides and secret fields.
 */
module Common {

  datatype Option<+T> = None | Some(value: T)

  datatype Result<+T, +E> = Ok(value: T) | Err(error: E)

  /** An outcome without a value: the source's functions that return None or raise. */
  datatype Outcome<+E> = Pass | Fail(error: E)

  /** A UUID; only its identity matters here. */
  type Uuid = nat

  /**
   * A JSON-compatible Python value: None, a scalar, a list or a dict with
   * string keys. Only `Obj` can be subscripted or assigned to with a string
   * key; every other value raises TypeError when a field is read from it.
   */
  datatype Doc =
    | Null
    | Bool(b: bool)
    | Num(n: int)
    | Str(s: string)
    | Arr(items: seq<Doc>)
    | Obj(fields: map<string, Doc>)

  /** The run-state types of the orchestration engine. */
  datatype StateType = Scheduled | Pending | Running | Completed | Failed | Cancelled | Crashed

  datatype StateDetails = StateDetails(flowRunId: Option<Uuid>, taskRunId: Option<Uuid>, scheduledTime: Option<int>)

  datatype State = State(stateType: StateType, name: string, details: Option<StateDetails>)

  /** `Pending()` as the agent builds it: a fresh pending state with empty details. */
  function PendingState(): (s: State)
    ensures s.stateType == Pending && s.details.Some?
  {
    State(Pending, "Pending", Some(StateDetails(None, None, None)))
  }

  /**
   * Python's `s.split(sep)`: the pieces between separators, always at least
   * one (possibly empty) piece.
   */
  function Split(s: string, sep: char): (parts: seq<string>)
    ensures |parts| >= 1
    ensures forall i :: 0 <= i < |parts| ==> sep !in parts[i]
    decreases |s|
  {
    if |s| == 0 then [""]
    else
      var rest := Split(s[1..], sep);
      if s[0] == sep then [""] + rest
      else [[s[0]] + rest[0]] + rest[1..]
  }

  /** Python's `sep.join(parts)`. */
  function Join(parts: seq<string>, sep: char): string
    requires |parts| >= 1
  {
    if |parts| == 1 then parts[0] else parts[0] + [sep] + Join(parts[1..], sep)
  }

  /** Splitting on a separator and joining again gives back the original string. */
  lemma {:induction false} JoinSplit(s: string, sep: char)
    ensures Join(Split(s, sep), sep) == s
    decreases |s|
  {
    if |s| > 0 {
      var rest := Split(s[1..], sep);
      JoinSplit(s[1..], sep);
      if s[0] != sep {
        JoinCons(s[0], rest, sep);
      }
    }
  }

  lemma JoinCons(c: char, parts: seq<string>, sep: char)
    requires |parts| >= 1
    ensures Join([[c] + parts[0]] + parts[1..], sep) == [c] + Join(parts, sep)
  {
  }

  /** Joining pieces free of the separator and splitting again gives back the pieces. */
  lemma {:induction false} SplitJoin(parts: seq<string>, sep: char)
    requires |parts| >= 1
    requires forall i :: 0 <= i < |parts| ==> sep !in parts[i]
    ensures Split(Join(parts, sep), sep) == parts
    decreases |parts|, |parts[0]|
  {
    if |parts[0]| == 0 {
      if |parts| > 1 {
        SplitJoin(parts[1..], sep);
        var s := Join(parts, sep);
        assert s == [sep] + Join(parts[1..], sep);
        assert s[1..] == Join(parts[1..], sep);
        assert [""] + parts[1..] == parts;
      }
    } else {
      var c := parts[0][0];
      var tail := [parts[0][1..]] + parts[1..];
      assert sep !in tail[0];
      forall i | 0 <= i < |tail| ensures sep !in tail[i] {
        if i > 0 { assert tail[i] == parts[i]; }
      }
      SplitJoin(tail, sep);
      JoinCons(c, tail, sep);
      assert [c] + tail[0] == parts[0];
      assert tail[1..] == parts[1..];
      assert [[c] + tail[0]] + tail[1..] == parts;
      var s := Join(parts, sep);
      assert s == [c] + Join(tail, sep);
      assert s[1..] == Join(tail, sep);
    }
  }
}
