/**
 * The SDK's logger: whether a log line is printed, given the configured
 * level and scopes, and what a `debug` call hands to the delegate and to
 * the console dump.
 */
module Logging {
  import opened Wrappers

  /**
   * A log level, by the raw value that `shouldPrint` compares and the
   * description that is printed (the enum's cases are not part of this model).
   */
  datatype LogLevel = LogLevel(rawValue: int, description: string)

  /** A log scope; `All` is the scope that enables every other. */
  datatype LogScope = All | Scope(rawValue: string)

  /** The logging part of the global options, passed in explicitly. */
  datatype LoggingOptions = LoggingOptions(level: Option<LogLevel>, scopes: set<LogScope>)

  /** The threshold used when no level is configured. */
  const NoLevelThreshold := 99

  function Threshold(options: LoggingOptions): int {
    match options.level
    case Some(l) => l.rawValue
    case None => NoLevelThreshold
  }

  /** `Logger.shouldPrint`: the level reaches the threshold and the scope is enabled. */
  predicate ShouldPrint(level: LogLevel, scope: LogScope, options: LoggingOptions)
    // a printed line reaches the threshold and its scope is enabled, directly or through `.all`
    ensures ShouldPrint(level, scope, options) ==> level.rawValue >= Threshold(options)
    ensures ShouldPrint(level, scope, options) ==> scope in options.scopes || All in options.scopes
  {
    var exceedsCurrentLogLevel := level.rawValue >= Threshold(options);
    var isInScope := scope in options.scopes;
    var allLogsActive := All in options.scopes;
    exceedsCurrentLogLevel && (isInScope || allLogsActive)
  }

  /** With no level configured, only levels of raw value 99 or more print. */
  lemma NoLevelMeansNinetyNine(level: LogLevel, scope: LogScope, scopes: set<LogScope>)
    requires scope in scopes
    ensures ShouldPrint(level, scope, LoggingOptions(None, scopes)) <==> level.rawValue >= 99
  {
  }

  /** Printing is monotone in the level's raw value, for a fixed scope. */
  lemma ShouldPrintMonotone(low: LogLevel, high: LogLevel, scope: LogScope, options: LoggingOptions)
    requires low.rawValue <= high.rawValue
    requires ShouldPrint(low, scope, options)
    ensures ShouldPrint(high, scope, options)
  {
  }

  /** With `.all` enabled, the scope does not matter: only the level check does. */
  lemma AllScopeOnlyLevelMatters(level: LogLevel, scope: LogScope, options: LoggingOptions)
    requires All in options.scopes
    ensures ShouldPrint(level, scope, options) <==> level.rawValue >= Threshold(options)
  {
  }

  /** A scope that is neither enabled nor covered by `.all` never prints. */
  lemma DisabledScopeNeverPrints(level: LogLevel, scope: LogScope, options: LoggingOptions)
    requires scope !in options.scopes && All !in options.scopes
    ensures !ShouldPrint(level, scope, options)
  {
  }

  /** The info dictionary given to `debug`, with the text its `debugDescription` renders. */
  datatype Info = Info(entries: map<string, string>, debugDescription: string)

  /** An error given to `debug`, with its `localizedDescription`. */
  datatype LogError = LogError(localizedDescription: string)

  /** A value of the dump payload. */
  datatype Dumped = DumpedInfo(info: Info) | DumpedError(error: LogError)

  /** The call made to the delegate's `handleLog`. */
  datatype HandleLogCall = HandleLogCall(
    level: string, scope: LogScope, message: Option<string>, info: Option<Info>, error: Option<LogError>)

  /** The console `dump`: its payload and the header line it is printed under. */
  datatype Dump = Dump(payload: map<string, Dumped>, name: string)

  /** Everything one `debug` call does, in order: the text lines it collects, the delegate call, the dump. */
  datatype DebugEffect = DebugEffect(output: seq<string>, handleLog: HandleLogCall, dump: Option<Dump>)

  /**
   * Timestamp rewriting of `debug`: every "T" becomes a space and every "Z"
   * is removed (the two `replacingOccurrences` calls, applied in that order).
   */
  function FormatTimestamp(iso: string): (r: string)
    ensures 'T' !in r && 'Z' !in r
    ensures |r| == |iso| - Count(iso, 'Z')
    ensures forall c :: c != 'T' && c != 'Z' && c != ' ' ==> Count(r, c) == Count(iso, c)
    ensures Count(r, ' ') == Count(iso, ' ') + Count(iso, 'T')
  {
    if iso == [] then []
    else if iso[0] == 'T' then [' '] + FormatTimestamp(iso[1..])
    else if iso[0] == 'Z' then FormatTimestamp(iso[1..])
    else [iso[0]] + FormatTimestamp(iso[1..])
  }

  /** `replacingOccurrences(of:with:)` for one character by one character: position by position. */
  function ReplaceChar(s: string, from: char, to: char): (r: string)
    ensures |r| == |s|
    ensures forall i :: 0 <= i < |s| ==> r[i] == if s[i] == from then to else s[i]
  {
    seq(|s|, i requires 0 <= i < |s| => if s[i] == from then to else s[i])
  }

  /** `replacingOccurrences(of:with: "")` for one character: the other characters, in order. */
  function RemoveChar(s: string, c: char): (r: string)
    ensures c !in r
    ensures |r| == |s| - Count(s, c)
    // every other character keeps its number of occurrences
    ensures forall x :: x != c ==> Count(r, x) == Count(s, x)
  {
    if s == [] then []
    else if s[0] == c then RemoveChar(s[1..], c)
    else
      var rest := RemoveChar(s[1..], c);
      assert ([s[0]] + rest)[1..] == rest;
      [s[0]] + rest
  }

  /** One character: it disappears if it is the removed one and stays otherwise. */
  lemma RemoveCharChar(x: char, c: char)
    ensures RemoveChar([x], c) == if x == c then [] else [x]
  {
    assert [x][1..] == [];
  }

  lemma {:induction false} RemoveCharAppend(a: string, b: string, c: char)
    ensures RemoveChar(a + b, c) == RemoveChar(a, c) + RemoveChar(b, c)
  {
    if a == [] {
      assert a + b == b;
    } else {
      var head := if a[0] == c then [] else [a[0]];
      assert (a + b)[0] == a[0] && (a + b)[1..] == a[1..] + b;
      RemoveCharAppend(a[1..], b, c);
      calc {
        RemoveChar(a + b, c);
        head + RemoveChar(a[1..] + b, c);
        head + (RemoveChar(a[1..], c) + RemoveChar(b, c));
        (head + RemoveChar(a[1..], c)) + RemoveChar(b, c);
      }
    }
  }

  /**
   * `FormatTimestamp` is the two `replacingOccurrences` calls of `debug`,
   * "T" by " " first and then "Z" removed, over the whole string.
   */
  lemma {:induction false} FormatTimestampIsReplaceThenRemove(iso: string)
    ensures FormatTimestamp(iso) == RemoveChar(ReplaceChar(iso, 'T', ' '), 'Z')
  {
    if iso != [] {
      FormatTimestampIsReplaceThenRemove(iso[1..]);
      var t := ReplaceChar(iso, 'T', ' ');
      assert t == ReplaceChar(iso[..1], 'T', ' ') + ReplaceChar(iso[1..], 'T', ' ');
      RemoveCharAppend(ReplaceChar(iso[..1], 'T', ' '), ReplaceChar(iso[1..], 'T', ' '), 'Z');
    }
  }

  /** The rewriting works character by character: it distributes over concatenation. */
  lemma {:induction false} FormatTimestampAppend(a: string, b: string)
    ensures FormatTimestamp(a + b) == FormatTimestamp(a) + FormatTimestamp(b)
  {
    if a == [] {
      assert a + b == b;
    } else {
      assert (a + b)[1..] == a[1..] + b;
      FormatTimestampAppend(a[1..], b);
    }
  }

  /** One character: "T" becomes a space, "Z" disappears, anything else stays. */
  lemma FormatTimestampChar(c: char)
    ensures FormatTimestamp([c]) == if c == 'T' then [' '] else if c == 'Z' then [] else [c]
  {
    assert [c][1..] == [];
  }

  /** Number of occurrences of `c` in `s`. */
  function Count(s: string, c: char): nat {
    if s == [] then 0 else (if s[0] == c then 1 else 0) + Count(s[1..], c)
  }

  /**
   * `Logger.debug`, with the detached task run to completion. The current
   * date's ISO string is a parameter; the console is represented by the
   * returned dump.
   */
  method Debug(
    level: LogLevel,
    scope: LogScope,
    options: LoggingOptions,
    isoNow: string,
    message: Option<string>,
    info: Option<Info>,
    error: Option<LogError>
  ) returns (effect: DebugEffect)
    // the delegate always hears about the log, before and regardless of the gate
    ensures effect.handleLog == HandleLogCall(level.description, scope, message, info, error)
    // the dump happens exactly when the gate is open
    ensures effect.dump.Some? <==> ShouldPrint(level, scope, options)
    // the payload carries "info" iff info was given, "error" iff an error was given, nothing else
    ensures effect.dump.Some? ==>
              && effect.dump.value.payload.Keys == (if info.Some? then {"info"} else {}) + (if error.Some? then {"error"} else {})
              && (info.Some? ==> effect.dump.value.payload["info"] == DumpedInfo(info.value))
              && (error.Some? ==> effect.dump.value.payload["error"] == DumpedError(error.value))
    ensures effect.dump.Some? ==>
              effect.dump.value.name == "[Superwall]  [" + FormatTimestamp(isoNow) + "]  " + level.description
                                        + "  " + ScopeName(scope) + "  " + message.GetOr("")
    // one text line per supplied part, message first, then info, then error
    ensures effect.output == (if message.Some? then [message.value] else [])
                             + (if info.Some? then [info.value.debugDescription] else [])
                             + (if error.Some? then [error.value.localizedDescription] else [])
  {
    var output: seq<string> := [];
    var dumping: map<string, Dumped> := map[];
    if message.Some? {
      output := output + [message.value];
    }
    if info.Some? {
      output := output + [info.value.debugDescription];
      dumping := dumping["info" := DumpedInfo(info.value)];
    }
    if error.Some? {
      output := output + [error.value.localizedDescription];
      dumping := dumping["error" := DumpedError(error.value)];
    }
    var handled := HandleLogCall(level.description, scope, message, info, error);
    if !ShouldPrint(level, scope, options) {
      return DebugEffect(output, handled, None);
    }
    var dateString := FormatTimestamp(isoNow);
    var name := "[Superwall]  [" + dateString + "]  " + level.description + "  " + ScopeName(scope) + "  " + message.GetOr("");
    effect := DebugEffect(output, handled, Some(Dump(dumping, name)));
  }

  /** The scope's raw value as printed; the raw value of `.all` is written "all" here. */
  function ScopeName(scope: LogScope): string {
    match scope
    case All => "all"
    case Scope(raw) => raw
  }
}
