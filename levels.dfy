/**
 * Error levels (levels.go). A Level is a plain integer: the five named
 * levels are 1..5 and 0 means "no level set". Every integer is a Level,
 * so the predicates below are specified for out-of-range values too.
 */
module Levels {

  type Level = int

  const DEBUG: Level := 1
  const INFO: Level := 2
  const WARN: Level := 3
  const ERROR: Level := 4
  const FATAL: Level := 5

  /** The names of the five levels, keyed by level. */
  const LevelStrings: map<Level, string> :=
    map[DEBUG := "debug", INFO := "info", WARN := "warn", ERROR := "error", FATAL := "fatal"]

  /** True of the five named levels. */
  predicate IsNamed(l: Level) {
    DEBUG <= l <= FATAL
  }

  /** The named levels are 1..5, in increasing order, and 0 is none of them. */
  lemma NamedLevelsOrdered()
    ensures DEBUG == 1 && FATAL == 5
    ensures DEBUG < INFO < WARN < ERROR < FATAL
    ensures !IsNamed(0)
    ensures forall l :: l in LevelStrings <==> IsNamed(l)
  {
  }

  /**
   * True of the characters that Unicode simple lower-casing maps into
   * 'a'..'z': the letters 'A'..'Z', the dotted capital I (U+0130, which
   * lower-cases to 'i') and the Kelvin sign (U+212A, which lower-cases to 'k').
   */
  predicate FoldsToAscii(c: char) {
    'A' <= c <= 'Z' || c == '\U{0130}' || c == '\U{212A}'
  }

  /**
   * Lower-casing of one character, exact for every character whose lower
   * case is an ASCII letter; every other character is kept as it is.
   */
  function LowerChar(c: char): (r: char)
    ensures 'A' <= c <= 'Z' ==> 'a' <= r <= 'z' && r as int - c as int == 32
    ensures c == '\U{0130}' ==> r == 'i'
    ensures c == '\U{212A}' ==> r == 'k'
    ensures !FoldsToAscii(c) ==> r == c
    ensures !FoldsToAscii(r)
  {
    if 'A' <= c <= 'Z' then (c as int + 32) as char
    else if c == '\U{0130}' then 'i'
    else if c == '\U{212A}' then 'k'
    else c
  }

  /** Lower-casing of a whole string, character by character. */
  function ToLower(s: string): (r: string)
    ensures |r| == |s|
    ensures forall i :: 0 <= i < |s| ==> r[i] == LowerChar(s[i])
  {
    seq(|s|, i requires 0 <= i < |s| => LowerChar(s[i]))
  }

  /** A string with no character that lower-cases into 'a'..'z' is its own lower-case form. */
  lemma ToLowerFixed(s: string)
    requires forall i :: 0 <= i < |s| ==> !FoldsToAscii(s[i])
    ensures ToLower(s) == s
  {
  }

  /** Lower-casing twice is lower-casing once. */
  lemma ToLowerIdempotent(s: string)
    ensures ToLower(ToLower(s)) == ToLower(s)
  {
  }

  /**
   * The printed name of a level: the LevelStrings entry, or the empty string
   * when the level has no entry (the zero value of a missing map key).
   */
  function String(l: Level): (r: string)
    ensures r != "" <==> IsNamed(l)
    ensures IsNamed(l) ==> r == LevelStrings[l]
    ensures IsNamed(l) ==> ToLower(r) == r
  {
    if l in LevelStrings then LevelStrings[l] else ""
  }

  /**
   * Parses a level name, ignoring case; any string that is not one of the
   * five names gives 0. The result is a named level exactly when the
   * lower-cased input is one of the printed names, and then it prints back
   * as the lower-cased input.
   */
  function StringToLevel(level: string): (r: Level)
    ensures r == 0 || IsNamed(r)
    ensures IsNamed(r) <==> ToLower(level) in LevelStrings.Values
    ensures IsNamed(r) ==> String(r) == ToLower(level)
  {
    assert LevelStrings.Values == {"debug", "info", "warn", "error", "fatal"} by {
      assert LevelStrings[DEBUG] == "debug" && LevelStrings[INFO] == "info";
      assert LevelStrings[WARN] == "warn" && LevelStrings[ERROR] == "error";
      assert LevelStrings[FATAL] == "fatal";
    }
    var l := ToLower(level);
    if l == "debug" then DEBUG
    else if l == "info" then INFO
    else if l == "warn" then WARN
    else if l == "error" then ERROR
    else if l == "fatal" then FATAL
    else 0
  }

  /** Parsing the printed name of any named level gives that level back. */
  lemma StringRoundTrip(l: Level)
    requires IsNamed(l)
    ensures StringToLevel(String(l)) == l
  {
    var s := String(l);
    ToLowerFixed(s);
  }

  /** Parsing is case-insensitive, the dotted capital I and the Kelvin sign included. */
  lemma StringToLevelIgnoresCase(s: string)
    ensures StringToLevel(s) == StringToLevel(ToLower(s))
    ensures StringToLevel("ERROR") == ERROR
    ensures StringToLevel("\U{0130}NFO") == INFO
    ensures StringToLevel("FATAL") == FATAL
  {
    ToLowerIdempotent(s);
    assert ToLower("ERROR") == "error";
    assert ToLower("\U{0130}NFO") == "info";
    assert ToLower("FATAL") == "fatal";
  }

  /** False only for DEBUG; true for 0 and for every other integer. */
  predicate NotDebug(l: Level)
    ensures NotDebug(l) <==> l != DEBUG
  {
    if l == DEBUG then false else true
  }

  /** True for ERROR and FATAL only, matched by equality: values above FATAL give false. */
  predicate IsError(l: Level)
    ensures IsError(l) <==> IsNamed(l) && l >= ERROR
  {
    l == ERROR || l == FATAL
  }

  /** True for FATAL only. */
  predicate IsFatal(l: Level)
    ensures IsFatal(l) <==> IsNamed(l) && l >= FATAL
  {
    l == FATAL
  }

  /** The predicates nest: fatal implies error, and error implies not debug. */
  lemma PredicatesNest(l: Level)
    ensures IsFatal(l) ==> IsError(l)
    ensures IsError(l) ==> NotDebug(l)
    ensures !IsNamed(l) ==> !IsError(l) && !IsFatal(l)
  {
  }
}
