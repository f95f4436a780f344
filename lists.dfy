/**
 * The error list (lists.go): an ordered sequence of errors and a cached
 * Level that, absent an explicit SetLevel, is the highest level among
 * the errors (0 for an empty list).
 */
module ErrorList {
  import opened Levels
  import opened Configuration
  import opened Sinks
  import LeveledError

  type Error = LeveledError.Error

  function Max(a: Level, b: Level): (r: Level)
    ensures r >= a && r >= b && (r == a || r == b)
  {
    if a >= b then a else b
  }

  /**
   * The level a list caches: the highest level among the errors, never
   * below the zero level a fresh list starts with.
   */
  function MaxLevel(s: seq<Error>): (r: Level)
    ensures r >= 0
    ensures forall i :: 0 <= i < |s| ==> s[i].level <= r
    ensures r == 0 || exists i :: 0 <= i < |s| && s[i].level == r
    decreases |s|
  {
    if s == [] then 0 else Max(MaxLevel(s[..|s| - 1]), s[|s| - 1].level)
  }

  /** The level of a concatenation is the larger of the two levels. */
  lemma MaxLevelConcat(a: seq<Error>, b: seq<Error>)
    ensures MaxLevel(a + b) == Max(MaxLevel(a), MaxLevel(b))
  {
    var r, ra, rb := MaxLevel(a + b), MaxLevel(a), MaxLevel(b);
    assert r >= ra by {
      if ra != 0 {
        var i :| 0 <= i < |a| && a[i].level == ra;
        assert (a + b)[i] == a[i];
      }
    }
    assert r >= rb by {
      if rb != 0 {
        var i :| 0 <= i < |b| && b[i].level == rb;
        assert (a + b)[|a| + i] == b[i];
      }
    }
    if r != 0 {
      var i :| 0 <= i < |a + b| && (a + b)[i].level == r;
      if i < |a| {
        assert a[i] == (a + b)[i];
      } else {
        assert b[i - |a|] == (a + b)[i];
      }
    }
  }

  /**
   * The errors a log view keeps: those whose level reaches the threshold,
   * in their original order.
   */
  function Visible(s: seq<Error>, threshold: Level): (r: seq<Error>)
    ensures |r| <= |s|
    ensures forall i :: 0 <= i < |r| ==> r[i].level >= threshold && r[i] in s
    decreases |s|
  {
    if s == [] then []
    else
      var last := s[|s| - 1];
      Visible(s[..|s| - 1], threshold) + (if last.level >= threshold then [last] else [])
  }

  /** Every error that reaches the threshold is kept. */
  lemma {:induction false} VisibleComplete(s: seq<Error>, threshold: Level, x: Error)
    requires x in s && x.level >= threshold
    ensures x in Visible(s, threshold)
    decreases |s|
  {
    var init := s[..|s| - 1];
    if x != s[|s| - 1] {
      assert s == init + [s[|s| - 1]];
      assert x in init;
      VisibleComplete(init, threshold, x);
    }
  }

  /** Filtering a concatenation filters each part and keeps their order. */
  lemma {:induction false} VisibleConcat(a: seq<Error>, b: seq<Error>, threshold: Level)
    ensures Visible(a + b, threshold) == Visible(a, threshold) + Visible(b, threshold)
    decreases |b|
  {
    if b == [] {
      assert a + b == a;
    } else {
      var init := b[..|b| - 1];
      assert (a + b)[..|a + b| - 1] == a + init;
      VisibleConcat(a, init, threshold);
    }
  }

  /** A threshold that every error reaches keeps the whole list. */
  lemma {:induction false} VisibleAll(s: seq<Error>, threshold: Level)
    requires forall i :: 0 <= i < |s| ==> s[i].level >= threshold
    ensures Visible(s, threshold) == s
    decreases |s|
  {
    if s != [] {
      VisibleAll(s[..|s| - 1], threshold);
    }
  }

  /** The rendering of each error, in order. */
  function Render(s: seq<Error>, cfg: Config, marshal: LeveledError.Marshal): (r: seq<string>)
    ensures |r| == |s|
    ensures forall i :: 0 <= i < |s| ==> r[i] == LeveledError.String(s[i], cfg, marshal)
  {
    seq(|s|, i requires 0 <= i < |s| => LeveledError.String(s[i], cfg, marshal))
  }

  /** strings.Join. */
  function Join(parts: seq<string>, sep: string): string
    decreases |parts|
  {
    if parts == [] then ""
    else if |parts| == 1 then parts[0]
    else parts[0] + sep + Join(parts[1..], sep)
  }

  class List {
    var errors: seq<Error>
    var level: Level

    /** The cached level is the maximum of the stored levels (no SetLevel override in force). */
    ghost predicate Consistent()
      reads this
    {
      level == MaxLevel(errors)
    }

    /** The zero List: no errors, level 0. */
    constructor ()
      ensures errors == [] && level == 0
      ensures Consistent()
    {
      errors, level := [], 0;
    }

    /** Check: whether any errors are held, and how many (0 when there are none). */
    function Check(): (r: (bool, int))
      reads this
      ensures r.0 <==> errors != []
      ensures r.1 == |errors|
    {
      var l := |errors|;
      if l > 0 then (true, l) else (false, 0)
    }

    /** IsError reads the cached level only: true for ERROR and FATAL, whatever the errors are. */
    function IsError(): (r: bool)
      reads this
      ensures r <==> level == ERROR || level == FATAL
    {
      Levels.IsError(level)
    }

    /** IsFatal reads the cached level only. */
    function IsFatal(): (r: bool)
      reads this
      ensures r <==> level == FATAL
      ensures r ==> IsError()
    {
      Levels.IsFatal(level)
    }

    /** SetLevel overrides the cached level and leaves the errors alone. */
    method SetLevel(l: Level)
      modifies this
      ensures level == l && errors == old(errors)
    {
      level := l;
    }

    /**
     * Add: an error with a level is appended at the end and raises the
     * cached level to its own if that is higher; an error with level 0 is
     * ignored. The cached level never goes down, and stays the maximum if
     * it was the maximum before.
     */
    method Add(err: Error)
      modifies this
      ensures err.level != 0 ==> errors == old(errors) + [err] && level == Max(old(level), err.level)
      ensures err.level == 0 ==> errors == old(errors) && level == old(level)
      ensures level >= old(level)
      ensures old(Consistent()) ==> Consistent()
    {
      if err.level != 0 {
        if err.level > level {
          level := err.level;
        }
        assert (errors + [err])[..|errors|] == errors;
        errors := errors + [err];
      }
    }

    /**
     * Stack: puts the other list's errors in front of this one's. An empty
     * other list changes nothing; an empty receiver takes the other list's
     * errors and level as they are; otherwise the levels are merged by max.
     */
    method Stack(other: List)
      modifies this
      ensures old(other.errors) == [] ==> errors == old(errors) && level == old(level)
      ensures old(other.errors) != [] && old(errors) == [] ==>
                errors == old(other.errors) && level == old(other.level)
      ensures old(other.errors) != [] && old(errors) != [] ==>
                errors == old(other.errors) + old(errors) && level == Max(old(level), old(other.level))
      ensures old(Consistent()) && old(other.Consistent()) ==> Consistent()
    {
      var otherErrors, otherLevel := other.errors, other.level;
      if |otherErrors| > 0 {
        if |errors| == 0 {
          level := otherLevel;
          errors := otherErrors;
          return;
        }
        if otherLevel > level {
          level := otherLevel;
        }
        MaxLevelConcat(otherErrors, errors);
        errors := otherErrors + errors;
      }
    }

    /**
     * Append: the same cases as Stack, but the other list's errors go
     * after this one's.
     */
    method Append(other: List)
      modifies this
      ensures old(other.errors) == [] ==> errors == old(errors) && level == old(level)
      ensures old(other.errors) != [] && old(errors) == [] ==>
                errors == old(other.errors) && level == old(other.level)
      ensures old(other.errors) != [] && old(errors) != [] ==>
                errors == old(errors) + old(other.errors) && level == Max(old(level), old(other.level))
      ensures old(Consistent()) && old(other.Consistent()) ==> Consistent()
    {
      var otherErrors, otherLevel := other.errors, other.level;
      if |otherErrors| > 0 {
        if |errors| == 0 {
          level := otherLevel;
          errors := otherErrors;
          return;
        }
        if otherLevel > level {
          level := otherLevel;
        }
        MaxLevelConcat(errors, otherErrors);
        errors := errors + otherErrors;
      }
    }

    /** Clear: no errors, level 0. */
    method Clear()
      modifies this
      ensures errors == [] && level == 0
      ensures Consistent()
    {
      level := 0;
      errors := [];
    }

    /**
     * MarshalArray: the renderings of the errors whose level reaches
     * `loggingLevel`, in list order.
     */
    method MarshalArray(loggingLevel: Level, cfg: Config, marshal: LeveledError.Marshal)
      returns (msgs: seq<string>)
      ensures msgs == Render(Visible(errors, loggingLevel), cfg, marshal)
      ensures |msgs| <= |errors|
    {
      var l := |errors|;
      if l == 0 {
        return [];
      }
      msgs := [];
      var i := 0;
      while i < l
        invariant 0 <= i <= l
        invariant msgs == Render(Visible(errors[..i], loggingLevel), cfg, marshal)
      {
        var err := errors[i];
        assert errors[..i + 1][..i] == errors[..i];
        if err.level >= loggingLevel {
          msgs := msgs + [LeveledError.String(err, cfg, marshal)];
        }
        i := i + 1;
      }
      assert errors[..l] == errors;
    }

    /**
     * Log: nothing on an empty list; otherwise one line per rendering that
     * MarshalArray keeps, then the list is cleared.
     */
    method Log(loggingLevel: Level, cfg: Config, marshal: LeveledError.Marshal, sink: Sink)
      modifies this, sink
      ensures old(errors) == [] ==>
                errors == [] && level == old(level) && sink.lines == old(sink.lines)
      ensures old(errors) != [] ==>
                sink.lines == old(sink.lines) + Render(Visible(old(errors), loggingLevel), cfg, marshal) &&
                errors == [] && level == 0
      ensures sink.exited == old(sink.exited)
    {
      if |errors| == 0 {
        return;
      }
      var msgs := MarshalArray(loggingLevel, cfg, marshal);
      var i := 0;
      while i < |msgs|
        invariant 0 <= i <= |msgs|
        invariant sink.lines == old(sink.lines) + msgs[..i]
        invariant sink.exited == old(sink.exited)
        invariant errors == old(errors) && level == old(level)
      {
        sink.Println(msgs[i]);
        assert msgs[..i + 1] == msgs[..i] + [msgs[i]];
        i := i + 1;
      }
      assert msgs[..|msgs|] == msgs;
      Clear();
    }

    /**
     * Fatal: when the cached level is FATAL, writes the kept renderings
     * joined by newlines as one line and exits; otherwise does nothing.
     */
    method Fatal(loggingLevel: Level, cfg: Config, marshal: LeveledError.Marshal, sink: Sink)
      modifies sink
      ensures IsFatal() ==>
                sink.lines == old(sink.lines) + [Join(Render(Visible(errors, loggingLevel), cfg, marshal), "\n")] &&
                sink.exited
      ensures !IsFatal() ==> sink.lines == old(sink.lines) && sink.exited == old(sink.exited)
    {
      if IsFatal() {
        var msgs := MarshalArray(loggingLevel, cfg, marshal);
        sink.Fatalln(Join(msgs, "\n"));
      }
    }
  }

  /**
   * The basic list scenario: a zero List that is given errors of levels
   * DEBUG, INFO and ERROR through Add holds all three, in order, at level
   * ERROR, so it is an error but not fatal.
   */
  method AddSequenceExample(e1: Error, e2: Error, e3: Error)
    returns (errors: seq<Error>, level: Level, isError: bool, isFatal: bool)
    requires e1.level == DEBUG && e2.level == INFO && e3.level == ERROR
    ensures errors == [e1, e2, e3]
    ensures level == ERROR && isError && !isFatal
  {
    var list := new List();
    list.Add(e1);
    list.Add(e2);
    list.Add(e3);
    errors, level := list.errors, list.level;
    isError, isFatal := list.IsError(), list.IsFatal();
  }
}
