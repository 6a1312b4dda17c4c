/**
 * The client tracker (src/debug/ClientTracker.ts): an append-only buffer of
 * time-stamped diagnostic lines, the method-call traces that fill it, and the
 * plain-text report built from it. The clock is an ISO timestamp given to each
 * operation; JSON serialisation of the logged data is given as text.
 */
module ClientTrackerModel {
  import opened Wrappers
  import opened JsStrings
  import opened JsObjects

  // ---------------------------------------------------------------------------
  // Log lines
  // ---------------------------------------------------------------------------

  /** A line before it is time-stamped: the message and, for truthy data, its JSON. */
  datatype LogLine = LogLine(message: string, data: Option<string>)

  /** `[HH:MM:SS.mmm] 🔍 message`, then a space and the JSON of the data when there is some. */
  function Entry(iso: IsoTimestamp, line: LogLine): (r: string)
  {
    "[" + TimeOfDay(iso) + "] \U{1F50D} " + line.message + (if line.data.Some? then " " + line.data.value else "")
  }

  /** The entry carries the time of day of the timestamp, and the message and data follow unchanged. */
  lemma EntryShape(iso: IsoTimestamp, line: LogLine)
    ensures Entry(iso, line) == "[" + iso[11..23] + "] \U{1F50D} " + line.message
                                + (if line.data.Some? then " " + line.data.value else "")
    ensures |Entry(iso, line)| == 17 + |line.message| + (if line.data.Some? then 1 + |line.data.value| else 0)
  {
    assert TimeOfDay(iso) == iso[11..23];
  }

  function Entries(iso: IsoTimestamp, lines: seq<LogLine>): (r: seq<string>)
    ensures |r| == |lines|
    ensures forall i :: 0 <= i < |lines| ==> r[i] == Entry(iso, lines[i])
  {
    seq(|lines|, i requires 0 <= i < |lines| => Entry(iso, lines[i]))
  }

  lemma EntriesAppend(iso: IsoTimestamp, a: seq<LogLine>, b: seq<LogLine>)
    ensures Entries(iso, a + b) == Entries(iso, a) + Entries(iso, b)
  {
  }

  /** Lines logged after earlier ones extend the buffer by the entries of both, in turn. */
  lemma EntriesInTurn(iso: IsoTimestamp, before: seq<string>, a: seq<LogLine>, b: seq<LogLine>)
    ensures (before + Entries(iso, a)) + Entries(iso, b) == before + Entries(iso, a + b)
  {
    EntriesAppend(iso, a, b);
    AppendInTurn(before, Entries(iso, a), Entries(iso, b));
  }

  /** One line logged is one entry. */
  lemma EntriesSingle(iso: IsoTimestamp, line: LogLine)
    ensures Entries(iso, [line]) == [Entry(iso, line)]
  {
  }

  // ---------------------------------------------------------------------------
  // traceMethodCall
  // ---------------------------------------------------------------------------

  /**
   * The record logged with METHOD CHECK. The value of `boundCorrectly`, which
   * inspects source text, is not modelled; the `TypeError` its `toString` call
   * throws is (see `ToStringThrows`).
   */
  datatype MethodCheck = MethodCheck(
    present: bool,
    typeName: string,
    isFunction: bool,
    hasOwnProperty: bool,
    inPrototype: bool)

  /** `key in v`: throws for anything but an object. */
  function InOperator(heap: Heap, v: JsValue, key: PropKey): Result<bool, Thrown>
    requires WellFormed(heap)
  {
    if !v.Ref? then Err(TypeError)
    else if v.id !in heap then Ok(false)
    else Ok(HasProperty(heap, v.id, key))
  }

  /** `obj.hasOwnProperty(key)`: throws when `hasOwnProperty` is not a function on the chain. */
  function HasOwnCall(heap: Heap, v: JsValue, key: PropKey): Result<bool, Thrown>
    requires WellFormed(heap)
  {
    if TypeOf(heap, GetValue(heap, v, Named("hasOwnProperty"))) != "function" then Err(TypeError)
    else Ok(OwnValue(OwnProperties(heap, v), key).Some?)
  }

  /**
   * `method.toString()` in `boundCorrectly` throws when the member is an object
   * without a callable `toString`; a truthy primitive always has one.
   */
  predicate ToStringThrows(heap: Heap, member: JsValue)
    requires WellFormed(heap)
  {
    member.Ref? && TypeOf(heap, GetValue(heap, member, Named("toString"))) != "function"
  }

  /** The METHOD CHECK record, or the `TypeError` building it throws. */
  function CheckOf(heap: Heap, methodName: string, obj: JsValue): (r: Result<MethodCheck, Thrown>)
    requires WellFormed(heap)
    ensures r.Ok? ==> (r.value.isFunction <==> TypeOf(heap, GetValue(heap, obj, Named(methodName))) == "function")
    ensures r.Ok? ==> (r.value.isFunction <==> r.value.typeName == "function")
  {
    var key := Named(methodName);
    var member := GetValue(heap, obj, key);
    match InOperator(heap, obj, key)
    case Err(e) => Err(e)
    case Ok(present) =>
      if ToStringThrows(heap, member) then Err(TypeError)
      else match HasOwnCall(heap, obj, key)
      case Err(e) => Err(e)
      case Ok(own) =>
        match InOperator(heap, PrototypeOf(heap, obj), key)
        case Err(e) => Err(e)
        case Ok(inPrototype) =>
          Ok(MethodCheck(present, TypeOf(heap, member), TypeOf(heap, member) == "function", own, inPrototype))
  }

  function Dotted(objectName: string, methodName: string): string {
    objectName + "." + methodName
  }

  /** What `traceMethodCall` returns, or the `TypeError` it lets escape. */
  function TraceResult(heap: Heap, methodName: string, obj: JsValue): Result<bool, Thrown>
    requires WellFormed(heap)
  {
    if !Truthy(obj) then Ok(false)
    else match CheckOf(heap, methodName, obj)
      case Err(e) => Err(e)
      case Ok(check) => Ok(check.isFunction)
  }

  /** The lines `traceMethodCall` logs, in order. */
  function TraceLines(heap: Heap, objectName: string, methodName: string, obj: JsValue,
                      describe: MethodCheck -> string): seq<LogLine>
    requires WellFormed(heap)
  {
    var attempt := LogLine("ATTEMPTING: " + Dotted(objectName, methodName), None);
    if !Truthy(obj) then [attempt, LogLine("\U{274C} OBJECT IS NULL/UNDEFINED: " + objectName, None)]
    else match CheckOf(heap, methodName, obj)
      case Err(_) => [attempt]
      case Ok(check) => [attempt] + CheckLines(Dotted(objectName, methodName), check, describe)
  }

  /** The METHOD CHECK line with its record, then the verdict on the member. */
  function CheckLines(name: string, check: MethodCheck, describe: MethodCheck -> string): seq<LogLine> {
    var checked := LogLine("METHOD CHECK: " + name, Some(describe(check)));
    if !check.isFunction then [checked, LogLine("\U{274C} NOT A FUNCTION: " + name + " is " + check.typeName, None)]
    else [checked, LogLine("\U{2705} METHOD VALID: " + name + " is ready to call", None)]
  }

  /** A falsy object gives `false` after the ATTEMPTING and the null lines. */
  lemma FalsyObjectTrace(heap: Heap, objectName: string, methodName: string, obj: JsValue, describe: MethodCheck -> string)
    requires WellFormed(heap) && !Truthy(obj)
    ensures TraceResult(heap, methodName, obj) == Ok(false)
    ensures |TraceLines(heap, objectName, methodName, obj, describe)| == 2
    ensures TraceLines(heap, objectName, methodName, obj, describe)[1].message
         == "\U{274C} OBJECT IS NULL/UNDEFINED: " + objectName
  {
  }

  /**
   * For a present object the trace says whether the member is a function;
   * it throws exactly when the object is a primitive, the member is an object
   * without a callable `toString`, the object has no callable
   * `hasOwnProperty`, or it has no prototype.
   */
  lemma TraceMeaning(heap: Heap, methodName: string, obj: JsValue)
    requires WellFormed(heap) && Truthy(obj)
    ensures TraceResult(heap, methodName, obj).Err? <==>
      || !obj.Ref?
      || ToStringThrows(heap, GetValue(heap, obj, Named(methodName)))
      || TypeOf(heap, GetValue(heap, obj, Named("hasOwnProperty"))) != "function"
      || PrototypeOf(heap, obj) == Null
    ensures TraceResult(heap, methodName, obj).Ok? ==>
      (TraceResult(heap, methodName, obj).value <==> TypeOf(heap, GetValue(heap, obj, Named(methodName))) == "function")
  {
    var key := Named(methodName);
    if obj.Ref? && TypeOf(heap, GetValue(heap, obj, Named("hasOwnProperty"))) == "function" {
      assert InOperator(heap, obj, key).Ok?;
      assert PrototypeOf(heap, obj) != Null ==> PrototypeOf(heap, obj).Ref?;
    }
  }

  // ---------------------------------------------------------------------------
  // traceAsyncMethodCall
  // ---------------------------------------------------------------------------

  /** Reading `method.constructor.name` throws when the constructor is `undefined` or `null`. */
  function ConstructorName(heap: Heap, member: JsValue): Result<JsValue, Thrown>
    requires WellFormed(heap)
  {
    var ctor := GetValue(heap, member, Named("constructor"));
    if ctor == Undefined || ctor == Null then Err(TypeError)
    else Ok(GetValue(heap, ctor, Named("name")))
  }

  /** `JSON.stringify` of a caught `TypeError`: its own properties are not enumerable. */
  const CaughtErrorJson := "{}"

  /** What the promise of `traceAsyncMethodCall` settles to: a value, or the rejection. */
  function AsyncResult(heap: Heap, methodName: string, obj: JsValue): (r: Result<bool, Thrown>)
    requires WellFormed(heap)
    ensures TraceResult(heap, methodName, obj) == Ok(false) ==> r == Ok(false)
    ensures TraceResult(heap, methodName, obj).Err? ==> r == TraceResult(heap, methodName, obj)
  {
    match TraceResult(heap, methodName, obj)
    case Err(e) => Err(e)
    case Ok(valid) =>
      if !valid then Ok(false)
      else Ok(ConstructorName(heap, GetValue(heap, obj, Named(methodName))).Ok?)
  }

  /** The lines `traceAsyncMethodCall` logs, in order. */
  function AsyncLines(heap: Heap, objectName: string, methodName: string, obj: JsValue,
                      params: Option<string>, describe: MethodCheck -> string): seq<LogLine>
    requires WellFormed(heap)
  {
    var name := Dotted(objectName, methodName);
    var traced := [LogLine("ASYNC TRACE: " + name, params)] + TraceLines(heap, objectName, methodName, obj, describe);
    if TraceResult(heap, methodName, obj) != Ok(true) then traced
    else traced + CallTestLines(heap, name, GetValue(heap, obj, Named(methodName)))
  }

  /** An invalid or failed trace ends the async trace after its own lines. */
  lemma AsyncStops(heap: Heap, objectName: string, methodName: string, obj: JsValue,
                   params: Option<string>, describe: MethodCheck -> string)
    requires WellFormed(heap) && TraceResult(heap, methodName, obj) != Ok(true)
    ensures AsyncResult(heap, methodName, obj) == TraceResult(heap, methodName, obj)
    ensures AsyncLines(heap, objectName, methodName, obj, params, describe) ==
      [LogLine("ASYNC TRACE: " + Dotted(objectName, methodName), params)] + TraceLines(heap, objectName, methodName, obj, describe)
  {
  }

  /** A valid method goes on to the call test. */
  lemma AsyncGoesOn(heap: Heap, objectName: string, methodName: string, obj: JsValue,
                    params: Option<string>, describe: MethodCheck -> string)
    requires WellFormed(heap) && TraceResult(heap, methodName, obj) == Ok(true)
    ensures AsyncResult(heap, methodName, obj) == Ok(ConstructorName(heap, GetValue(heap, obj, Named(methodName))).Ok?)
    ensures AsyncLines(heap, objectName, methodName, obj, params, describe) ==
      ([LogLine("ASYNC TRACE: " + Dotted(objectName, methodName), params)] + TraceLines(heap, objectName, methodName, obj, describe))
      + CallTestLines(heap, Dotted(objectName, methodName), GetValue(heap, obj, Named(methodName)))
  {
  }

  /** The lines of the `try` block that inspects a valid method's constructor. */
  function CallTestLines(heap: Heap, name: string, member: JsValue): seq<LogLine>
    requires WellFormed(heap)
  {
    var testing := LogLine("TESTING CALL: " + name, None);
    match ConstructorName(heap, member)
    case Err(_) => [testing, LogLine("\U{274C} METHOD CALL TEST FAILED: " + name, Some(CaughtErrorJson))]
    case Ok(ctorName) =>
      if ctorName == Str("AsyncFunction") then [testing, LogLine("\U{2705} ASYNC METHOD CONFIRMED: " + name, None)]
      else [testing]
  }

  /** A valid method resolves `true` exactly when its constructor can be read. */
  lemma AsyncMeaning(heap: Heap, methodName: string, obj: JsValue)
    requires WellFormed(heap) && TraceResult(heap, methodName, obj) == Ok(true)
    ensures AsyncResult(heap, methodName, obj) == Ok(true) <==>
      GetValue(heap, GetValue(heap, obj, Named(methodName)), Named("constructor")) !in {Undefined, Null}
  {
  }

  // ---------------------------------------------------------------------------
  // exportDiagnostics
  // ---------------------------------------------------------------------------

  const Rule := Repeat('=', 80)
  const ReportTitle := "GITHUB CLIENT DIAGNOSTIC REPORT"
  const ReportEnd := "END OF REPORT"

  function ReportLines(iso: string, logs: seq<string>): seq<string> {
    [Rule, ReportTitle, "Generated: " + iso, Rule, ""] + logs + ["", Rule, ReportEnd]
  }

  /** The report: its lines joined with newlines. */
  function DiagnosticReport(iso: string, logs: seq<string>): string {
    Join(ReportLines(iso, logs), "\n")
  }

  predicate SingleLine(s: string) {
    forall i :: 0 <= i < |s| ==> s[i] != '\n'
  }

  /** Splitting lines joined with newlines gives them back, when none holds a newline. */
  lemma {:induction false} SplitJoin(parts: seq<string>)
    requires parts != [] && forall i :: 0 <= i < |parts| ==> SingleLine(parts[i])
    ensures Split(Join(parts, "\n"), '\n') == parts
    decreases |parts|
  {
    var first := parts[0];
    if |parts| == 1 {
      SplitWithout(first, '\n');
    } else {
      var rest := Join(parts[1..], "\n");
      var s := first + "\n" + rest;
      assert Join(parts, "\n") == s;
      assert IndexOf(s, '\n') == |first| by {
        assert s[|first|] == '\n';
        assert forall i :: 0 <= i < |first| ==> s[i] == first[i];
      }
      SplitAtFirst(s, '\n');
      assert s[..|first|] == first;
      assert s[|first| + 1..] == rest;
      SplitJoin(parts[1..]);
      assert parts == [first] + parts[1..];
    }
  }

  /** The report's lines can be read back: rules, title, timestamp, a blank line, the logs, a blank line, the end. */
  lemma ReportReadsBack(iso: string, logs: seq<string>)
    requires SingleLine(iso) && forall i :: 0 <= i < |logs| ==> SingleLine(logs[i])
    ensures Split(DiagnosticReport(iso, logs), '\n')
         == [Rule, ReportTitle, "Generated: " + iso, Rule, ""] + logs + ["", Rule, ReportEnd]
    ensures |Split(DiagnosticReport(iso, logs), '\n')| == |logs| + 8
  {
    var head := [Rule, ReportTitle, "Generated: " + iso, Rule, ""];
    var tail := ["", Rule, ReportEnd];
    FixedLinesAreSingle();
    assert SingleLine("Generated: " + iso) by {
      assert forall i :: 11 <= i < |"Generated: " + iso| ==> ("Generated: " + iso)[i] == iso[i - 11];
    }
    assert forall i :: 0 <= i < |head| ==> SingleLine(head[i]);
    assert forall i :: 0 <= i < |tail| ==> SingleLine(tail[i]);
    ConcatSingleLines(head, logs, tail);
    SplitJoin(head + logs + tail);
  }

  lemma FixedLinesAreSingle()
    ensures SingleLine(Rule) && SingleLine(ReportTitle) && SingleLine(ReportEnd) && SingleLine("")
  {
  }

  lemma ConcatSingleLines(a: seq<string>, b: seq<string>, c: seq<string>)
    requires forall i :: 0 <= i < |a| ==> SingleLine(a[i])
    requires forall i :: 0 <= i < |b| ==> SingleLine(b[i])
    requires forall i :: 0 <= i < |c| ==> SingleLine(c[i])
    ensures forall i :: 0 <= i < |a + b + c| ==> SingleLine((a + b + c)[i])
  {
  }

  // ---------------------------------------------------------------------------
  // The tracker
  // ---------------------------------------------------------------------------

  /** The tracker's static log buffer; `describe` is `JSON.stringify` of the METHOD CHECK record. */
  class ClientTracker {
    var logs: seq<string>
    const describe: MethodCheck -> string

    constructor(describe: MethodCheck -> string)
      ensures logs == [] && this.describe == describe
    {
      logs := [];
      this.describe := describe;
    }

    /** Appends exactly one entry and leaves the earlier ones as they were. */
    method Log(iso: IsoTimestamp, message: string, data: Option<string>)
      modifies this
      ensures logs == old(logs) + Entries(iso, [LogLine(message, data)])
    {
      var timestamp := TimeOfDay(iso);
      var logEntry := "[" + timestamp + "] \U{1F50D} " + message;
      logs := logs + [logEntry + (if data.Some? then " " + data.value else "")];
      EntriesSingle(iso, LogLine(message, data));
    }

    method TraceMethodCall(iso: IsoTimestamp, objectName: string, methodName: string, heap: Heap, obj: JsValue)
      returns (r: Result<bool, Thrown>)
      requires WellFormed(heap)
      modifies this
      ensures r == TraceResult(heap, methodName, obj)
      ensures logs == old(logs) + Entries(iso, TraceLines(heap, objectName, methodName, obj, describe))
    {
      var name := Dotted(objectName, methodName);
      Log(iso, "ATTEMPTING: " + name, None);
      ghost var attempt := [LogLine("ATTEMPTING: " + name, None)];
      if !Truthy(obj) {
        Log(iso, "\U{274C} OBJECT IS NULL/UNDEFINED: " + objectName, None);
        EntriesInTurn(iso, old(logs), attempt, [LogLine("\U{274C} OBJECT IS NULL/UNDEFINED: " + objectName, None)]);
        return Ok(false);
      }
      var check := CheckOf(heap, methodName, obj);
      if check.Err? {
        return Err(check.error);
      }
      var valid := ReportCheck(iso, name, check.value);
      EntriesInTurn(iso, old(logs), attempt, CheckLines(name, check.value, describe));
      r := Ok(valid);
    }

    /** Logs the METHOD CHECK record and the verdict; the member is valid when its type is "function". */
    method ReportCheck(iso: IsoTimestamp, name: string, check: MethodCheck) returns (valid: bool)
      requires check.isFunction <==> check.typeName == "function"
      modifies this
      ensures valid == check.isFunction
      ensures logs == old(logs) + Entries(iso, CheckLines(name, check, describe))
    {
      Log(iso, "METHOD CHECK: " + name, Some(describe(check)));
      ghost var checked := [LogLine("METHOD CHECK: " + name, Some(describe(check)))];
      if check.typeName != "function" {
        Log(iso, "\U{274C} NOT A FUNCTION: " + name + " is " + check.typeName, None);
        EntriesInTurn(iso, old(logs), checked, [LogLine("\U{274C} NOT A FUNCTION: " + name + " is " + check.typeName, None)]);
        return false;
      }
      Log(iso, "\U{2705} METHOD VALID: " + name + " is ready to call", None);
      EntriesInTurn(iso, old(logs), checked, [LogLine("\U{2705} METHOD VALID: " + name + " is ready to call", None)]);
      valid := true;
    }

    method TraceAsyncMethodCall(iso: IsoTimestamp, objectName: string, methodName: string, heap: Heap, obj: JsValue,
                                params: Option<string>)
      returns (r: Result<bool, Thrown>)
      requires WellFormed(heap)
      modifies this
      ensures r == AsyncResult(heap, methodName, obj)
      ensures logs == old(logs) + Entries(iso, AsyncLines(heap, objectName, methodName, obj, params, describe))
    {
      var name := Dotted(objectName, methodName);
      Log(iso, "ASYNC TRACE: " + name, params);
      var isValid := TraceMethodCall(iso, objectName, methodName, heap, obj);
      ghost var first := [LogLine("ASYNC TRACE: " + name, params)];
      ghost var traced := first + TraceLines(heap, objectName, methodName, obj, describe);
      EntriesInTurn(iso, old(logs), first, TraceLines(heap, objectName, methodName, obj, describe));
      if isValid.Err? || !isValid.value {
        AsyncStops(heap, objectName, methodName, obj, params, describe);
        return isValid;
      }
      AsyncGoesOn(heap, objectName, methodName, obj, params, describe);
      var member := GetValue(heap, obj, Named(methodName));
      r := TestCall(iso, name, heap, member);
      EntriesInTurn(iso, old(logs), traced, CallTestLines(heap, name, member));
    }

    /** The `try` block: whether a valid method's constructor can be read, and what is logged meanwhile. */
    method TestCall(iso: IsoTimestamp, name: string, heap: Heap, member: JsValue) returns (r: Result<bool, Thrown>)
      requires WellFormed(heap)
      modifies this
      ensures r == Ok(ConstructorName(heap, member).Ok?)
      ensures logs == old(logs) + Entries(iso, CallTestLines(heap, name, member))
    {
      Log(iso, "TESTING CALL: " + name, None);
      ghost var testing := [LogLine("TESTING CALL: " + name, None)];
      var ctorName := ConstructorName(heap, member);
      if ctorName.Err? {
        Log(iso, "\U{274C} METHOD CALL TEST FAILED: " + name, Some(CaughtErrorJson));
        EntriesInTurn(iso, old(logs), testing, [LogLine("\U{274C} METHOD CALL TEST FAILED: " + name, Some(CaughtErrorJson))]);
        return Ok(false);
      }
      if ctorName.value == Str("AsyncFunction") {
        Log(iso, "\U{2705} ASYNC METHOD CONFIRMED: " + name, None);
        EntriesInTurn(iso, old(logs), testing, [LogLine("\U{2705} ASYNC METHOD CONFIRMED: " + name, None)]);
      }
      r := Ok(true);
    }

    /** `[...logs]`: a fresh array holding the buffer; writing to it leaves the buffer alone. */
    method GetDiagnosticReport() returns (copy: array<string>)
      ensures fresh(copy) && copy[..] == logs
    {
      copy := new string[|logs|](i requires 0 <= i < |logs| reads this => logs[i]);
    }

    method ClearLogs()
      modifies this
      ensures logs == []
    {
      logs := [];
    }

    method ExportDiagnostics(iso: string) returns (report: string)
      ensures report == DiagnosticReport(iso, logs)
    {
      var lines := [Rule, ReportTitle, "Generated: " + iso, Rule, ""] + logs + ["", Rule, ReportEnd];
      report := Join(lines, "\n");
    }
  }
}
