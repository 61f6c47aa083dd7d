/**
 * Severity levels of the logger (levels.go): an integer-ordered
 * enumeration with an "unset" sentinel, its fixed name table, the parser
 * with the "warning" alias, and the text and JSON codecs built on them.
 */
module Levels {
  import opened Wrappers

  /** Go's `type Level int`. */
  newtype Level = int

  const UnsetLevel: Level := 0
  const DebugLevel: Level := 1
  const InfoLevel: Level := 2
  const WarnLevel: Level := 3
  const ErrorLevel: Level := 4
  const FatalLevel: Level := 5

  /** The error that ParseLevel reports; MalformedJson stands for any error of the JSON decoder. */
  datatype LevelError = InvalidLevel | MalformedJson

  /**
   * The name table `levelNames`: an array indexed by level whose slot for
   * UnsetLevel is never written and so holds Go's zero string.
   */
  const LevelNames: seq<string> := ["", "debug", "info", "warn", "error", "fatal"]

  /** The five levels a message can be logged at. */
  predicate IsReal(l: Level) {
    DebugLevel <= l <= FatalLevel
  }

  /** The levels the name table has a slot for; indexing outside it panics in Go. */
  predicate InTable(l: Level) {
    0 <= l as int < |LevelNames|
  }

  /** The tokens ParseLevel accepts. */
  const Tokens: set<string> := {"debug", "info", "warn", "warning", "error", "fatal"}

  /** `Level.String`: a lookup in the name table. */
  function String(l: Level): (s: string)
    requires InTable(l)
    ensures s == "" <==> l == UnsetLevel
    ensures IsReal(l) ==> s in Tokens && s != "warning"
  {
    LevelNames[l]
  }

  /**
   * `ParseLevel`: a total switch over the tokens, with "warning" as an
   * alias of "warn"; any other string yields -1 and InvalidLevel.
   */
  function ParseLevel(s: string): (r: (Level, Option<LevelError>))
    ensures r.1 == None <==> s in Tokens
    ensures r.1 != None ==> r == (-1, Some(InvalidLevel))
    ensures r.1 == None ==> IsReal(r.0) && (String(r.0) == s || (s == "warning" && r.0 == WarnLevel))
  {
    if s == "debug" then (DebugLevel, None)
    else if s == "info" then (InfoLevel, None)
    else if s == "warn" || s == "warning" then (WarnLevel, None)
    else if s == "error" then (ErrorLevel, None)
    else if s == "fatal" then (FatalLevel, None)
    else (-1, Some(InvalidLevel))
  }

  /** `MarshalText`: the level's name, as bytes; the Go error result is always nil. */
  function MarshalText(l: Level): (text: string)
    requires InTable(l)
    ensures text == String(l)
    ensures IsReal(l) ==> ParseLevel(text) == (l, None)
    ensures l == UnsetLevel ==> text == ""
  {
    String(l)
  }

  /** `MarshalJSON`: the level's name as a JSON string literal; the Go error result is always nil. */
  function MarshalJSON(l: Level): (json: string)
    requires InTable(l)
    ensures |json| == |String(l)| + 2
    ensures json[0] == '"' && json[|json| - 1] == '"'
    ensures json[1..|json| - 1] == String(l)
  {
    "\"" + String(l) + "\""
  }

  /** The levels are consecutive integers from 0, strictly ordered. */
  lemma LevelOrder()
    ensures UnsetLevel == 0
    ensures UnsetLevel < DebugLevel < InfoLevel < WarnLevel < ErrorLevel < FatalLevel
    ensures DebugLevel == UnsetLevel + 1 && InfoLevel == DebugLevel + 1 && WarnLevel == InfoLevel + 1
    ensures ErrorLevel == WarnLevel + 1 && FatalLevel == ErrorLevel + 1
  {
  }

  /** The names of the five real levels, as the name table fixes them. */
  lemma LevelNamesFixed()
    ensures String(DebugLevel) == "debug" && String(InfoLevel) == "info" && String(WarnLevel) == "warn"
    ensures String(ErrorLevel) == "error" && String(FatalLevel) == "fatal"
    ensures String(UnsetLevel) == ""
  {
  }

  /** Round trip: parsing the name of a real level gives that level back, without error. */
  lemma ParseString(l: Level)
    requires IsReal(l)
    ensures ParseLevel(String(l)) == (l, None)
  {
    assert l == DebugLevel || l == InfoLevel || l == WarnLevel || l == ErrorLevel || l == FatalLevel;
  }

  /** Round trip from the other side: a parsed token other than the alias prints back as itself. */
  lemma StringParse(s: string)
    requires s in Tokens && s != "warning"
    ensures String(ParseLevel(s).0) == s
  {
  }

  /** "warning" is an alias: it parses exactly as "warn" does. */
  lemma WarningAlias()
    ensures ParseLevel("warning") == ParseLevel("warn") == (WarnLevel, None)
  {
  }

  /** Every real level has a distinct name, so String is injective on them. */
  lemma StringInjective(a: Level, b: Level)
    requires IsReal(a) && IsReal(b) && String(a) == String(b)
    ensures a == b
  {
    ParseString(a);
    ParseString(b);
  }

  /** Decoding the JSON literal produced by MarshalJSON recovers the level. */
  lemma MarshalJSONRoundTrip(l: Level)
    requires IsReal(l)
    ensures var json := MarshalJSON(l); ParseLevel(json[1..|json| - 1]) == (l, None)
  {
    ParseString(l);
  }

  /**
   * The unset level marshals to the empty JSON string, which the JSON
   * decoding path rejects: only the text path treats empty input as a no-op.
   */
  lemma MarshalJSONUnsetRejected()
    ensures var json := MarshalJSON(UnsetLevel); ParseLevel(json[1..|json| - 1]) == (-1, Some(InvalidLevel))
  {
    var json := MarshalJSON(UnsetLevel);
    assert json[1..|json| - 1] == "";
  }

  /**
   * A variable of type Level, the receiver of the pointer methods
   * `UnmarshalText` and `UnmarshalJSON`, which assign through `*l`.
   */
  class LevelVar {
    var value: Level

    constructor (l: Level)
      ensures value == l
    {
      value := l;
    }

    /**
     * `UnmarshalText`: empty input is a no-op without error; otherwise the
     * text is parsed and, only on success, stored.
     */
    method UnmarshalText(text: string) returns (err: Option<LevelError>)
      modifies this
      ensures text == [] ==> err == None && value == old(value)
      ensures text != [] && text !in Tokens ==> err == Some(InvalidLevel) && value == old(value)
      ensures text != [] && text in Tokens ==> err == None && value == ParseLevel(text).0
    {
      if |text| == 0 {
        return None;
      }
      var (level, e) := ParseLevel(text);
      if e.Some? {
        return e;
      }
      value := level;
      return None;
    }

    /**
     * `UnmarshalJSON`: `decoded` is what the JSON decoder made of the input
     * (None when it failed); unlike UnmarshalText, an empty string is
     * parsed, and so rejected.
     */
    method UnmarshalJSON(decoded: Option<string>) returns (err: Option<LevelError>)
      modifies this
      ensures decoded == None ==> err == Some(MalformedJson) && value == old(value)
      ensures decoded.Some? && decoded.value !in Tokens ==> err == Some(InvalidLevel) && value == old(value)
      ensures decoded.Some? && decoded.value in Tokens ==> err == None && value == ParseLevel(decoded.value).0
    {
      if decoded == None {
        return Some(MalformedJson);
      }
      var (level, e) := ParseLevel(decoded.value);
      if e.Some? {
        return e;
      }
      value := level;
      return None;
    }
  }
}
