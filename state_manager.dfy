/**
 * The guard: runs a unit of work through the configured state keepers, keeps
 * the first non-null result, and turns any failure into a ProjectException
 * that is logged once and then handed to the caller's handler or thrown.
 */
module StateManager {
  import opened Wrappers
  import opened PhpText
  import opened Severities
  import opened Exceptions
  import opened MysqlErrors

  /** What one keeper invocation did: returned a value (None is PHP's null) or threw. */
  datatype Outcome<T> = Returned(result: Option<T>) | Threw(failure: Throwable)

  /** One call `Log::<severity>(text)`. */
  datatype LogEntry = LogEntry(severity: string, text: string)

  /** How a guard call ends. */
  datatype GuardResult<T> =
    | Value(value: Option<T>)                              // every keeper returned; the canonical result
    | NoResult                                             // no keeper is configured: `$returnValue['final']` is never set
    | Handled(argument: CustomException, value: Option<T>) // the handler was called with `argument` and returned `value`
    | Raised(exception: CustomException)                   // the guard threw `exception`

  /** The foreign functions the guard calls: `trans`, `json_encode`, and the 1406 column pattern. */
  datatype Host = Host(trans: Translation -> string, json: PhpArray -> string, column: string -> Option<string>)

  // ---------------------------------------------------------------- the keeper loop

  /** The position of the first keeper invocation that throws, if one does. */
  function FirstFailure<T>(keepers: seq<Outcome<T>>): (r: Option<nat>)
    ensures r.Some? ==> r.value < |keepers| && keepers[r.value].Threw?
    ensures r.Some? ==> forall j :: 0 <= j < r.value ==> keepers[j].Returned?
    ensures r.None? <==> forall j :: 0 <= j < |keepers| ==> keepers[j].Returned?
  {
    if |keepers| == 0 then None
    else if keepers[0].Threw? then Some(0)
    else
      match FirstFailure(keepers[1..])
      case None => None
      case Some(i) => Some(i + 1)
  }

  /** The first non-null result among the keepers' results (`isset` is false for null), or null. */
  function FirstNonNull<T>(keepers: seq<Outcome<T>>): Option<T> {
    if |keepers| == 0 then None
    else if keepers[0].Returned? && keepers[0].result.Some? then keepers[0].result
    else FirstNonNull(keepers[1..])
  }

  /** The canonical result is the result at the first position that holds a non-null one. */
  lemma {:induction false} FirstNonNullIsFirst<T>(keepers: seq<Outcome<T>>, i: nat)
    requires i < |keepers| && keepers[i].Returned? && keepers[i].result.Some?
    requires forall j :: 0 <= j < i ==> !(keepers[j].Returned? && keepers[j].result.Some?)
    ensures FirstNonNull(keepers) == keepers[i].result
  {
    if i > 0 {
      FirstNonNullIsFirst(keepers[1..], i - 1);
    }
  }

  /** The canonical result is null exactly when no keeper returned a non-null result. */
  lemma {:induction false} FirstNonNullNone<T>(keepers: seq<Outcome<T>>)
    ensures FirstNonNull(keepers).None? <==>
      forall j :: 0 <= j < |keepers| ==> !(keepers[j].Returned? && keepers[j].result.Some?)
  {
    if |keepers| > 0 {
      FirstNonNullNone(keepers[1..]);
      assert forall j :: 1 <= j < |keepers| ==> keepers[j] == keepers[1..][j - 1];
    }
  }

  /** One more returned result changes the canonical result only while it is still null. */
  lemma {:induction false} FirstNonNullSnoc<T>(keepers: seq<Outcome<T>>, r: Option<T>)
    ensures FirstNonNull(keepers + [Returned(r)]) == if FirstNonNull(keepers).Some? then FirstNonNull(keepers) else r
  {
    if |keepers| > 0 {
      assert (keepers + [Returned(r)])[1..] == keepers[1..] + [Returned(r)];
      FirstNonNullSnoc(keepers[1..], r);
    } else {
      assert ([Returned(r)])[1..] == [];
    }
  }

  // ---------------------------------------------------------------- the diagnostic message

  /** `$additionalData`: the JSON of the data, or "Not available" when that is blank. */
  function AdditionalData(json: string): (r: string)
    ensures !Blank(r)
    ensures Blank(json) ==> r == "Not available"
    ensures !Blank(json) ==> r == json
  {
    if Blank(json) then
      NotBlankWhenLed("Not available");
      "Not available"
    else json
  }

  /** The exception the diagnostic reports on: the previous one when there is one, else the exception itself. */
  function Original(e: CustomException): Info
    reads e, e.PreviousRefs()
  {
    if e.previous.Some? then InfoOf(e.previous.value) else Info(e.message, IntToString(e.code), e.origin)
  }

  function CustomLines(errMsg: string, errCode: int, additional: string): string {
    "Custom Message: " + errMsg + "\r\n"
    + "Custom Code: " + IntToString(errCode) + "\r\n"
    + "Additional Data: " + additional + "\r\n"
  }

  function OriginalLines(original: Info): string {
    "Original Message: " + original.message + "\r\n"
    + "Original Code: " + original.code + "\r\n"
  }

  function LocationLines(original: Info): string {
    "File: " + original.origin.file + "\r\n"
    + "Line: " + IntToString(original.origin.line) + "\r\n"
    + "Stack Trace: " + "\r\n"
    + original.origin.trace + "\r\n"
  }

  const DIAGNOSTIC_HEADER: string := "[StateGuard]\r\n"

  /** The diagnostic text: header, the custom lines, the original exception's lines, DELIMITER. */
  function Diagnostic(errMsg: string, errCode: int, additional: string, original: Info): (r: string)
    ensures StartsWith(r, DIAGNOSTIC_HEADER)
    ensures EndsWith(r, DELIMITER)
  {
    var middle := CustomLines(errMsg, errCode, additional) + OriginalLines(original) + LocationLines(original);
    assert (DIAGNOSTIC_HEADER + (middle + DELIMITER))[..|DIAGNOSTIC_HEADER|] == DIAGNOSTIC_HEADER;
    DIAGNOSTIC_HEADER + middle + DELIMITER
  }

  /** `constructMessage`: the diagnostic for a classified exception (the only kind the guard passes it). */
  function ConstructMessage(e: CustomException, json: PhpArray -> string, errMsg: string := "", errCode: int := 0): string
    reads e, e.PreviousRefs()
  {
    Diagnostic(errMsg, errCode, AdditionalData(json(e.data)), Original(e))
  }

  /**
   * The diagnostic reports the custom message and code it is given, and the
   * message and code of the previous exception when there is one, of the
   * exception itself otherwise.
   */
  lemma ConstructMessageReports(e: CustomException, json: PhpArray -> string, errMsg: string, errCode: int)
    ensures Contains(ConstructMessage(e, json, errMsg, errCode), CustomLines(errMsg, errCode, AdditionalData(json(e.data))))
    ensures e.previous.Some? ==>
      Contains(ConstructMessage(e, json, errMsg, errCode), OriginalLines(InfoOf(e.previous.value)))
    ensures e.previous.None? ==>
      Contains(ConstructMessage(e, json, errMsg, errCode), OriginalLines(Info(e.message, IntToString(e.code), e.origin)))
  {
    var c := CustomLines(errMsg, errCode, AdditionalData(json(e.data)));
    var o := OriginalLines(Original(e));
    var l := LocationLines(Original(e));
    Regroup3(DIAGNOSTIC_HEADER, c, o, l, DELIMITER);
    ContainedIn(DIAGNOSTIC_HEADER, c, o + l + DELIMITER);
    ContainedIn(DIAGNOSTIC_HEADER + c, o, l + DELIMITER);
  }

  /** Reassociation over opaque parts; stated apart so that the long literals stay out of the solver's way. */
  lemma Regroup3(h: string, c: string, o: string, l: string, z: string)
    ensures h + (c + o + l) + z == h + c + (o + l + z)
    ensures h + (c + o + l) + z == (h + c) + o + (l + z)
  {
  }

  // ---------------------------------------------------------------- classification

  /** The message key the guard translates for an unclassified failure. */
  function WrappedTranslation(kind: RawKind, column: string -> Option<string>): Translation {
    match kind
    case ModelNotFound(_, _) => Translation(ErrorCode404, [])
    case Query(code, detail) => QueryTranslation(code, detail, column)
    case _ => Translation(ErrorCode500, [])
  }

  /** The code of the ProjectException that wraps an unclassified failure. */
  function WrappedCode(kind: RawKind): int {
    match kind
    case ModelNotFound(_, _) => 404
    case Query(code, _) => code
    case _ => 500
  }

  /** The data of the ProjectException that wraps an unclassified failure. */
  function WrappedData(kind: RawKind): Option<PhpArray> {
    match kind
    case ModelNotFound(model, ids) => Some([(StrKey("model"), Str(model)), (StrKey("ids"), ids)])
    case _ => None
  }

  /**
   * What the guard makes of `failure`: `x` is the exception that leaves it
   * (passed to the handler when there is one, thrown otherwise), `severity`
   * and `diagnostic` are what it logs.
   */
  ghost predicate WrapsAs(failure: Throwable, hasHandler: bool, errorType: string, host: Host, site: Origin,
                          x: CustomException, severity: string, diagnostic: string)
    reads failure.Refs(), if failure.Classified? then failure.e.PreviousRefs() else {}, x, x.PreviousRefs()
  {
    match failure
    case Classified(ce) =>
      // logged with its own type; handed over as it is, or re-thrown as a ProjectException without data
      && severity == ce.GetType()
      && diagnostic == ConstructMessage(ce, host.json)
      && (hasHandler ==> x == ce)
      && (!hasHandler ==>
            Constructed(x, PROJECT_EXCEPTION, site, Some(ce.message), Some(ce.GetType()), ce.code, None, Some(failure)))
    case Unclassified(raw) =>
      var errMsg := host.trans(WrappedTranslation(raw.kind, host.column));
      var code := WrappedCode(raw.kind);
      // logged with the caller's error type; the diagnostic reports the raw failure
      && severity == errorType
      && diagnostic == Diagnostic(errMsg, code, AdditionalData(host.json(NormalizeData(WrappedData(raw.kind)))),
                                  InfoOf(failure))
      && if raw.kind.Query? && hasHandler then
           // the handler gets the translated message, wrapping the exception that holds the raw one
           && x.previous.Some? && x.previous.value.Classified?
           && Constructed(x, PROJECT_EXCEPTION, site, Some(errMsg), Some(errorType), code, None, x.previous)
           && Constructed(x.previous.value.e, PROJECT_EXCEPTION, site, Some(raw.message), Some(errorType), code, None,
                          Some(failure))
         else
           Constructed(x, PROJECT_EXCEPTION, site, Some(raw.message), Some(errorType), code, WrappedData(raw.kind),
                       Some(failure))
  }

  /** The catch blocks of `guard`, in their order: builds the exception that leaves the guard and the log line. */
  method Classify(failure: Throwable, hasHandler: bool, errorType: string, host: Host, site: Origin)
    returns (x: CustomException, severity: string, diagnostic: string)
    ensures WrapsAs(failure, hasHandler, errorType, host, site, x, severity, diagnostic)
  {
    match failure
    case Classified(ce) =>
      diagnostic := ConstructMessage(ce, host.json);
      severity := ce.GetType();
      if hasHandler {
        x := ce;
      } else {
        x := new CustomException(PROJECT_EXCEPTION, site, Some(ce.message), Some(severity), ce.code, None, Some(failure));
      }
    case Unclassified(raw) =>
      severity := errorType;
      var code := WrappedCode(raw.kind);
      var errMsg := host.trans(WrappedTranslation(raw.kind, host.column));
      var wrapped := new CustomException(PROJECT_EXCEPTION, site, Some(raw.message), Some(errorType), code,
                                         WrappedData(raw.kind), Some(failure));
      diagnostic := ConstructMessage(wrapped, host.json, errMsg, code);
      if raw.kind.Query? && hasHandler {
        x := new CustomException(PROJECT_EXCEPTION, site, Some(errMsg), Some(errorType), code, None,
                                 Some(Classified(wrapped)));
      } else {
        x := wrapped;
      }
  }

  // ---------------------------------------------------------------- the guard

  /**
   * `StateManager::guard`. `keepers[i]` is what the i-th configured keeper
   * does with the work; `invoked` counts the keepers that were called, in
   * list order; `log` is what was written to the log.
   */
  method Guard<T>(keepers: seq<Outcome<T>>, host: Host, site: Origin,
                  handler: Option<CustomException -> Option<T>> := None, errorType: string := "error")
    returns (res: GuardResult<T>, invoked: nat, log: seq<LogEntry>)
    ensures FirstFailure(keepers).None? ==>
      && invoked == |keepers|
      && res == (if |keepers| == 0 then NoResult else Value(FirstNonNull(keepers)))
      && log == []
    ensures FirstFailure(keepers).Some? ==>
      && invoked == FirstFailure(keepers).value + 1
      && |log| == 1
      && (handler.Some? ==> res.Handled? && res.value == handler.value(res.argument))
      && (handler.None? ==> res.Raised?)
      && WrapsAs(keepers[FirstFailure(keepers).value].failure, handler.Some?, errorType, host, site,
                 if res.Handled? then res.argument else res.exception, log[0].severity, log[0].text)
  {
    var slot: Option<Option<T>> := None;  // `$returnValue['final']`; None while the key is unset
    var failure: Option<Throwable> := None;
    invoked := 0;
    while invoked < |keepers| && failure.None?
      invariant invoked <= |keepers|
      invariant failure.None? ==> forall j :: 0 <= j < invoked ==> keepers[j].Returned?
      invariant failure.None? ==> slot == if invoked == 0 then None else Some(FirstNonNull(keepers[..invoked]))
      invariant failure.Some? ==> 0 < invoked && FirstFailure(keepers) == Some(invoked - 1)
                                  && failure.value == keepers[invoked - 1].failure
      decreases |keepers| - invoked
    {
      match keepers[invoked] {
        case Returned(r) =>
          if !(slot.Some? && slot.value.Some?) {
            slot := Some(r);
          }
          assert keepers[..invoked + 1] == keepers[..invoked] + [Returned(r)];
          FirstNonNullSnoc(keepers[..invoked], r);
        case Threw(t) =>
          failure := Some(t);
      }
      invoked := invoked + 1;
    }

    if failure.None? {
      assert keepers[..invoked] == keepers;
      log := [];
      res := if slot.None? then NoResult else Value(slot.value);
    } else {
      var x, severity, diagnostic := Classify(failure.value, handler.Some?, errorType, host, site);
      // `$msg` is set before the handler runs, so the `finally` block always logs once
      log := [LogEntry(severity, diagnostic)];
      res := if handler.Some? then Handled(x, handler.value(x)) else Raised(x);
    }
  }

  /** A classified exception re-thrown by the guard keeps its message, type and code, and drops its data. */
  lemma ClassifiedRethrowKeeps(ce: CustomException, errorType: string, host: Host, site: Origin,
                               x: CustomException, severity: string, diagnostic: string)
    requires ce.Valid()
    requires WrapsAs(Classified(ce), false, errorType, host, site, x, severity, diagnostic)
    ensures x.message == ce.message && x.GetType() == ce.GetType() && x.code == ce.code
    ensures x.data == [] && x.previous == Some(Classified(ce))
    ensures severity in ERROR_TYPES
  {
    RebuildKeeps(ce, x, PROJECT_EXCEPTION, site, None, Some(Classified(ce)));
  }
}
