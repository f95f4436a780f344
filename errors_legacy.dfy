/**
 * The older error variant (errors.go). It declares its own `Error` and
 * `New`, reads the package globals logTime, logCaller, logLevel and
 * loggingLevel (given here as parameters), and differs from error.go:
 * New ignores its level and message, its metadata loop pairs every
 * element with the next one, String zeroes the receiver's own level, and
 * Log writes only at exactly the logging level.
 */
module LegacyError {
  import opened Wrappers
  import opened Levels
  import opened Sinks

  type Instant = int

  /** A Go `Error` struct of this variant; `time` is None for the zero time. */
  datatype Error = Error(
    level: Level,
    time: Option<Instant>,
    message: string,
    metadata: map<string, string>)

  /** The JSON encoding of an error, left abstract. */
  type Marshal = Error -> string

  /** newError: zero level, zero time, empty message, an empty metadata map. */
  function Blank(): (r: Error)
    ensures r.level == 0 && r.time.None? && r.message == "" && |r.metadata| == 0
  {
    Error(0, None, "", map[])
  }

  /**
   * The map the metadata loop of New builds: every element except the
   * last is stored as a key whose value is the element after it, values
   * included, in order.
   */
  function Chain(m: map<string, string>, args: seq<string>): (r: map<string, string>)
    ensures m.Keys <= r.Keys
    decreases |args|
  {
    if |args| < 2 then m else Chain(m[args[0] := args[1]], args[1..])
  }

  /** One more element stores the previous last element as a key for it. */
  lemma {:induction false} ChainSnoc(m: map<string, string>, s: seq<string>, x: string)
    requires |s| >= 1
    ensures Chain(m, s + [x]) == Chain(m, s)[s[|s| - 1] := x]
    decreases |s|
  {
    if |s| == 1 {
      assert (s + [x])[1..] == [x];
    } else {
      assert (s + [x])[1..] == s[1..] + [x];
      ChainSnoc(m[s[0] := s[1]], s[1..], x);
    }
  }

  /** Exactly the old keys and every element but the last end up as keys. */
  lemma {:induction false} ChainKeys(m: map<string, string>, args: seq<string>, k: string)
    ensures k in Chain(m, args) <==> k in m || exists i :: 0 <= i < |args| - 1 && args[i] == k
    decreases |args|
  {
    if |args| >= 2 {
      var rest := args[1..];
      ChainKeys(m[args[0] := args[1]], rest, k);
      if exists i :: 0 <= i < |args| - 1 && args[i] == k {
        var i :| 0 <= i < |args| - 1 && args[i] == k;
        if i >= 1 {
          assert rest[i - 1] == k;
        }
      }
      if exists j :: 0 <= j < |rest| - 1 && rest[j] == k {
        var j :| 0 <= j < |rest| - 1 && rest[j] == k;
        assert args[j + 1] == k;
      }
    }
  }

  /** With k1, v1, k2, v2 the loop also stores v1 -> k2. */
  lemma ChainStoresValuesAsKeys()
    ensures Chain(map[], ["k1", "v1", "k2", "v2"]) == map["k1" := "v1", "v1" := "k2", "k2" := "v2"]
  {
    var e: map<string, string> := map[];
    ChainSnoc(e, ["k1", "v1", "k2"], "v2");
    ChainSnoc(e, ["k1", "v1"], "k2");
    ChainSnoc(e, ["k1"], "v1");
    assert ["k1"] + ["v1"] == ["k1", "v1"];
    assert ["k1", "v1"] + ["k2"] == ["k1", "v1", "k2"];
    assert ["k1", "v1", "k2"] + ["v2"] == ["k1", "v1", "k2", "v2"];
  }

  /**
   * New: level and message are never assigned, so both stay zero; a time
   * iff logTime; a caller entry iff logCaller; then every element but the
   * last is paired with the next one. A single argument would index past
   * the end, so New needs any number of arguments but one.
   */
  method New(l: Level, msg: string, args: seq<string>, logTime: bool, logCaller: bool, now: Instant, caller: string)
    returns (e: Error)
    requires |args| != 1
    ensures e.level == 0 && e.message == ""
    ensures e.time.Some? <==> logTime
    ensures e.time.Some? ==> e.time.value == now
    ensures e.metadata == Chain(if logCaller then map["caller" := caller] else map[], args)
  {
    e := Blank();
    if logTime {
      e := e.(time := Some(now));
    }
    if logCaller {
      e := e.(metadata := e.metadata["caller" := caller]);
    }
    ghost var base := e.metadata;
    var md := e.metadata;
    var i := 0;
    while i < |args|
      invariant |args| == 0 ==> i == 0 && md == base
      invariant |args| > 0 ==> 0 <= i && i + 1 < |args| && md == Chain(base, args[..i + 1])
    {
      ChainSnoc(base, args[..i + 1], args[i + 1]);
      assert args[..i + 1] + [args[i + 1]] == args[..i + 2];
      md := md[args[i] := args[i + 1]];
      if i + 2 >= |args| {
        assert args[..i + 2] == args;
        break;
      }
      i := i + 1;
    }
    e := e.(metadata := md);
  }

  /** The value String encodes and leaves in the receiver: level zeroed when levels are not recorded. */
  function Serialised(e: Error, logLevel: bool): (r: Error)
    ensures r.level == (if logLevel then e.level else 0)
    ensures r.(level := e.level) == e
  {
    if logLevel then e else e.(level := 0)
  }

  /**
   * String (pointer receiver): when levels are not recorded, the receiver's
   * own level is set to 0 for good; the result encodes the receiver as it
   * is afterwards.
   */
  method String(e: Error, logLevel: bool, marshal: Marshal) returns (s: string, r: Error)
    ensures r == Serialised(e, logLevel)
    ensures s == marshal(r)
  {
    r := e;
    if !logLevel {
      r := r.(level := 0);
    }
    s := marshal(r);
  }

  /** SetLevel overwrites the level and nothing else. */
  method SetLevel(e: Error, level: Level) returns (r: Error)
    ensures r.level == level && r.(level := e.level) == e
  {
    r := e.(level := level);
  }

  predicate IsError(e: Error)
    ensures IsError(e) <==> e.level == ERROR || e.level == FATAL
  {
    Levels.IsError(e.level)
  }

  predicate IsFatal(e: Error)
    ensures IsFatal(e) <==> e.level == FATAL
  {
    Levels.IsFatal(e.level)
  }

  /** Whether Log writes: only at exactly the logging level. */
  predicate Logged(e: Error, loggingLevel: Level)
    ensures Logged(e, loggingLevel) <==> e.level == loggingLevel
  {
    loggingLevel == e.level
  }

  /** An error above the logging level (an ERROR with logging level INFO, say) is not logged. */
  lemma LogSkipsHigherLevels(e: Error, loggingLevel: Level)
    requires e.level > loggingLevel
    ensures !Logged(e, loggingLevel)
  {
  }

  /**
   * Log: writes the rendering iff the level equals the logging level; the
   * rendering goes through String, so the receiver's level may be zeroed.
   */
  method Log(e: Error, loggingLevel: Level, logLevel: bool, marshal: Marshal, sink: Sink) returns (r: Error)
    modifies sink
    ensures Logged(e, loggingLevel) ==>
              r == Serialised(e, logLevel) && sink.lines == old(sink.lines) + [marshal(r)]
    ensures !Logged(e, loggingLevel) ==> r == e && sink.lines == old(sink.lines)
    ensures sink.exited == old(sink.exited)
  {
    r := e;
    if loggingLevel == e.level {
      var s;
      s, r := String(r, logLevel, marshal);
      sink.Println(s);
    }
  }

  /**
   * Fatal: for a non-empty message, sets the level to FATAL, renders
   * through String (which zeroes it again when levels are not recorded),
   * writes the line and exits; for an empty message, does nothing.
   */
  method Fatal(e: Error, logLevel: bool, marshal: Marshal, sink: Sink) returns (r: Error)
    modifies sink
    ensures |e.message| > 0 ==>
              r == Serialised(e.(level := FATAL), logLevel) &&
              sink.lines == old(sink.lines) + [marshal(r)] && sink.exited
    ensures |e.message| > 0 ==> (r.level == FATAL <==> logLevel)
    ensures |e.message| == 0 ==> r == e && sink.lines == old(sink.lines) && sink.exited == old(sink.exited)
  {
    r := e;
    if |e.message| > 0 {
      r := SetLevel(r, FATAL);
      var s;
      s, r := String(r, logLevel, marshal);
      sink.Fatalln(s);
    }
  }
}
