/**
 * The leveled error value (error.go): a level, a message, an optional
 * timestamp and a string-to-string metadata map, built under the current
 * configuration, compared without its timestamp and logged when its level
 * reaches the configured threshold.
 */
module LeveledError {
  import opened Wrappers
  import opened Levels
  import opened Configuration
  import opened Sinks

  /** A wall-clock reading; only whether one is present matters here. */
  type Instant = int

  /** A Go `Error` struct. `time` is None where the source's pointer is nil. */
  datatype Error = Error(
    time: Option<Instant>,
    level: Level,
    message: string,
    metadata: map<string, string>)

  /** The JSON encoding of an error, left abstract. */
  type Marshal = Error -> string

  // ---------------------------------------------------------------------------
  // Metadata: a flat list k1, v1, k2, v2, ... folded into a map
  // ---------------------------------------------------------------------------

  /** Position i of a flat argument list holds a key: it is even and a value follows it. */
  predicate KeyAt(args: seq<string>, i: int) {
    0 <= i && i + 1 < |args| && i % 2 == 0
  }

  /**
   * The map that results from storing args[0] -> args[1], args[2] -> args[3],
   * ... into m, in that order. A trailing key without a value is ignored.
   */
  function Pairs(m: map<string, string>, args: seq<string>): (r: map<string, string>)
    ensures m.Keys <= r.Keys
    decreases |args|
  {
    if |args| < 2 then m else Pairs(m[args[0] := args[1]], args[2..])
  }

  /** Adding one more pair after an even-length list stores that pair last. */
  lemma {:induction false} PairsSnoc(m: map<string, string>, s: seq<string>, k: string, v: string)
    requires |s| % 2 == 0
    ensures Pairs(m, s + [k, v]) == Pairs(m, s)[k := v]
    decreases |s|
  {
    if |s| >= 2 {
      assert (s + [k, v])[2..] == s[2..] + [k, v];
      PairsSnoc(m[s[0] := s[1]], s[2..], k, v);
    } else {
      assert s == [];
      assert (s + [k, v])[2..] == [];
    }
  }

  /** A trailing key with no value creates no entry. */
  lemma {:induction false} PairsDropsTrailingKey(m: map<string, string>, s: seq<string>, k: string)
    requires |s| % 2 == 0
    ensures Pairs(m, s + [k]) == Pairs(m, s)
    decreases |s|
  {
    if |s| >= 2 {
      assert (s + [k])[2..] == s[2..] + [k];
      PairsDropsTrailingKey(m[s[0] := s[1]], s[2..], k);
    }
  }

  /** A key is present afterwards iff it was present before or appears at a key position. */
  lemma {:induction false} PairsKeys(m: map<string, string>, args: seq<string>, k: string)
    ensures k in Pairs(m, args) <==> k in m || exists i :: KeyAt(args, i) && args[i] == k
    decreases |args|
  {
    if |args| >= 2 {
      var m' := m[args[0] := args[1]];
      var rest := args[2..];
      PairsKeys(m', rest, k);
      if exists i :: KeyAt(args, i) && args[i] == k {
        var i :| KeyAt(args, i) && args[i] == k;
        if i >= 2 {
          assert KeyAt(rest, i - 2) && rest[i - 2] == k;
        }
      }
      if exists j :: KeyAt(rest, j) && rest[j] == k {
        var j :| KeyAt(rest, j) && rest[j] == k;
        assert KeyAt(args, j + 2) && args[j + 2] == k;
      }
      assert KeyAt(args, 0);
    } else {
      assert forall i :: !KeyAt(args, i);
    }
  }

  /** A key that never appears at a key position keeps its old entry (or its absence). */
  lemma {:induction false} PairsUntouched(m: map<string, string>, args: seq<string>, k: string)
    requires forall i :: KeyAt(args, i) ==> args[i] != k
    ensures k in Pairs(m, args) <==> k in m
    ensures k in m ==> Pairs(m, args)[k] == m[k]
    decreases |args|
  {
    if |args| >= 2 {
      assert KeyAt(args, 0);
      var rest := args[2..];
      forall j | KeyAt(rest, j) ensures rest[j] != k {
        assert KeyAt(args, j + 2);
      }
      PairsUntouched(m[args[0] := args[1]], rest, k);
    }
  }

  /** For a repeated key the last pair wins: its value is the one after the key's last key position. */
  lemma {:induction false} PairsLastWins(m: map<string, string>, args: seq<string>, i: int)
    requires KeyAt(args, i)
    requires forall j :: KeyAt(args, j) && j > i ==> args[j] != args[i]
    ensures args[i] in Pairs(m, args) && Pairs(m, args)[args[i]] == args[i + 1]
    decreases |args|
  {
    var rest := args[2..];
    var m' := m[args[0] := args[1]];
    if i == 0 {
      forall j | KeyAt(rest, j) ensures rest[j] != args[0] {
        assert KeyAt(args, j + 2);
      }
      PairsUntouched(m', rest, args[0]);
    } else {
      assert KeyAt(rest, i - 2) && rest[i - 2] == args[i];
      forall j | KeyAt(rest, j) && j > i - 2 ensures rest[j] != rest[i - 2] {
        assert KeyAt(args, j + 2);
      }
      PairsLastWins(m', rest, i - 2);
    }
  }

  /**
   * AddMetadata: walks the arguments, skipping odd positions, stopping at a
   * key with no value, and storing each key/value pair into the metadata.
   * Only the metadata changes.
   */
  method AddMetadata(e: Error, args: seq<string>) returns (r: Error)
    ensures r == e.(metadata := Pairs(e.metadata, args))
  {
    var md := e.metadata;
    var l := |args|;
    var i := 0;
    while i < l
      invariant 0 <= i <= l
      invariant i % 2 == 1 ==> i + 1 < l
      invariant md == Pairs(e.metadata, args[..if i % 2 == 0 then i else i + 1])
    {
      if i % 2 != 0 {
        i := i + 1;
        continue;
      }
      if i + 1 == l {
        PairsDropsTrailingKey(e.metadata, args[..i], args[i]);
        assert args[..i] + [args[i]] == args;
        return e.(metadata := md);
      }
      PairsSnoc(e.metadata, args[..i], args[i], args[i + 1]);
      assert args[..i] + [args[i], args[i + 1]] == args[..i + 2];
      md := md[args[i] := args[i + 1]];
      if i + 2 >= l {
        assert args[..i + 2] == args;
        return e.(metadata := md);
      }
      i := i + 1;
    }
    assert args[..i] == args;
    return e.(metadata := md);
  }

  /** The two documented examples of folding: an even list, and an odd one whose last key is dropped. */
  lemma PairsExamples()
    ensures Pairs(map[], ["key1", "val1", "key2", "val2"]) == map["key1" := "val1", "key2" := "val2"]
    ensures Pairs(map[], ["key1", "val1", "key2"]) == map["key1" := "val1"]
  {
    var e: map<string, string> := map[];
    PairsSnoc(e, [], "key1", "val1");
    PairsSnoc(e, ["key1", "val1"], "key2", "val2");
    PairsDropsTrailingKey(e, ["key1", "val1"], "key2");
    assert [] + ["key1", "val1"] == ["key1", "val1"];
    assert ["key1", "val1"] + ["key2", "val2"] == ["key1", "val1", "key2", "val2"];
    assert ["key1", "val1"] + ["key2"] == ["key1", "val1", "key2"];
  }

  // ---------------------------------------------------------------------------
  // Construction
  // ---------------------------------------------------------------------------

  /** The metadata a new error starts from: the caller entry when callers are recorded, nothing otherwise. */
  function InitialMetadata(cfg: Config, caller: string): (m: map<string, string>)
    ensures "caller" in m <==> cfg.logCaller
    ensures m.Keys <= {"caller"}
    ensures cfg.logCaller ==> m["caller"] == caller
  {
    if cfg.logCaller then map["caller" := caller] else map[]
  }

  /**
   * NewError: level and message as given, a timestamp iff the configuration
   * records time, a caller entry iff it records callers, then the argument
   * pairs folded in on top. `now` stands for the clock and `caller` for the
   * stack inspection.
   */
  method NewError(level: Level, msg: string, args: seq<string>, cfg: Config, now: Instant, caller: string)
    returns (e: Error)
    ensures e.level == level && e.message == msg
    ensures e.time.Some? <==> cfg.logTime
    ensures e.time.Some? ==> e.time.value == now
    ensures e.metadata == Pairs(InitialMetadata(cfg, caller), args)
  {
    e := Error(None, 0, "", map[]);
    e := e.(level := level);
    e := e.(message := msg);
    if cfg.logTime {
      e := e.(time := Some(now));
    }
    if cfg.logCaller {
      e := e.(metadata := e.metadata["caller" := caller]);
    }
    e := AddMetadata(e, args);
  }

  /**
   * The "caller" key of a new error: present iff callers are recorded or
   * the arguments name it; when recorded and not named, it holds the
   * caller string; an explicit "caller" pair overrides the recorded one.
   */
  lemma {:induction false} NewErrorCaller(cfg: Config, caller: string, args: seq<string>)
    ensures "caller" in Pairs(InitialMetadata(cfg, caller), args) <==>
            cfg.logCaller || exists i :: KeyAt(args, i) && args[i] == "caller"
    ensures cfg.logCaller && (forall i :: KeyAt(args, i) ==> args[i] != "caller") ==>
            Pairs(InitialMetadata(cfg, caller), args)["caller"] == caller
  {
    var m := InitialMetadata(cfg, caller);
    PairsKeys(m, args, "caller");
    if forall i :: KeyAt(args, i) ==> args[i] != "caller" {
      PairsUntouched(m, args, "caller");
    }
  }

  // ---------------------------------------------------------------------------
  // Equality, rendering and predicates
  // ---------------------------------------------------------------------------

  /** Equal: same level, message and metadata; the timestamp is not compared. */
  function Equal(a: Error, b: Error): (r: bool)
    ensures r <==> a.(time := b.time) == b
  {
    a.level == b.level && a.message == b.message && a.metadata == b.metadata
  }

  /** Equal is an equivalence relation and is blind to the timestamp. */
  lemma EqualIsEquivalence(a: Error, b: Error, c: Error, t: Option<Instant>)
    ensures Equal(a, a)
    ensures Equal(a, b) <==> Equal(b, a)
    ensures Equal(a, b) && Equal(b, c) ==> Equal(a, c)
    ensures Equal(a, a.(time := t))
  {
  }

  /**
   * The value String encodes: the error itself, or (the receiver being a
   * copy) a copy with Level 0 when levels are not recorded. Only the level
   * can differ.
   */
  function Serialised(e: Error, cfg: Config): (r: Error)
    ensures r.level == (if cfg.logLevel then e.level else 0)
    ensures r.(level := e.level) == e
  {
    if cfg.logLevel then e else e.(level := 0)
  }

  /** String: the JSON encoding of the serialised copy. */
  function String(e: Error, cfg: Config, marshal: Marshal): (r: string)
    ensures cfg.logLevel ==> r == marshal(e)
    ensures !cfg.logLevel ==> r == marshal(e.(level := 0))
  {
    marshal(Serialised(e, cfg))
  }

  /** With levels not recorded, the rendering does not depend on the level at all. */
  lemma StringHidesLevel(e: Error, cfg: Config, marshal: Marshal, l: Level)
    requires !cfg.logLevel
    ensures String(e.(level := l), cfg, marshal) == String(e, cfg, marshal)
  {
    assert e.(level := l).(level := 0) == e.(level := 0);
  }

  predicate IsError(e: Error)
    ensures IsError(e) <==> e.level == ERROR || e.level == FATAL
  {
    Levels.IsError(e.level)
  }

  predicate IsFatal(e: Error)
    ensures IsFatal(e) <==> e.level == FATAL
  {
    Levels.IsFatal(e.level)
  }

  /** Whether Log writes: the level reaches the configured minimum. */
  predicate Logged(e: Error, cfg: Config) {
    e.level >= cfg.loggingLevel
  }

  // ---------------------------------------------------------------------------
  // Effects
  // ---------------------------------------------------------------------------

  /** Log: one line, the rendering, iff the level is at least the configured minimum. */
  method Log(e: Error, cfg: Config, marshal: Marshal, sink: Sink)
    modifies sink
    ensures Logged(e, cfg) ==> sink.lines == old(sink.lines) + [String(e, cfg, marshal)]
    ensures !Logged(e, cfg) ==> sink.lines == old(sink.lines)
    ensures sink.exited == old(sink.exited)
  {
    if e.level >= cfg.loggingLevel {
      sink.Println(String(e, cfg, marshal));
    }
  }

  /**
   * Fatal: for a non-empty message, sets the level to FATAL, writes the
   * rendering and exits; for an empty message, does nothing.
   */
  method Fatal(e: Error, cfg: Config, marshal: Marshal, sink: Sink) returns (r: Error)
    modifies sink
    ensures |e.message| > 0 ==> r == e.(level := FATAL)
    ensures |e.message| > 0 ==> sink.lines == old(sink.lines) + [String(r, cfg, marshal)] && sink.exited
    ensures |e.message| == 0 ==> r == e && sink.lines == old(sink.lines) && sink.exited == old(sink.exited)
  {
    r := e;
    if |e.message| > 0 {
      r := r.(level := FATAL);
      sink.Fatalln(String(r, cfg, marshal));
    }
  }
}
