/**
 * The classified exception: a PHP exception that carries a severity type, an
 * integer code and an array of extra data, and normalises each of them when it
 * is set. `ProjectException` adds nothing to it, so it is this class with the
 * class name PROJECT_EXCEPTION.
 */
module Exceptions {
  import opened Wrappers
  import opened PhpText
  import opened Severities

  /** A PHP array key. */
  datatype Key = IntKey(i: int) | StrKey(s: string)

  /** The PHP values an exception's data may hold (floats and objects are not modelled). */
  datatype Value = Null | Bool(b: bool) | Int(i: int) | Str(s: string) | Arr(entries: seq<(Key, Value)>)

  /** A PHP array: an ordered list of key/value entries. */
  type PhpArray = seq<(Key, Value)>

  /** Where PHP created an exception: `getFile`, `getLine` and `getTraceAsString`. */
  datatype Origin = Origin(file: string, line: int, trace: string)

  /** The kinds of failure the guard tells apart that are not classified exceptions, in catch order. */
  datatype RawKind =
    | ModelNotFound(model: string, ids: Value)   // Eloquent's ModelNotFoundException
    | Query(driverCode: int, detail: string)    // QueryException: errorInfo[1] and errorInfo[2]
    | Guzzle                                     // any GuzzleException
    | ErrorExc                                   // ErrorException
    | GenericExc                                 // any other Exception
    | OtherThrowable                             // any other Throwable (an Error)

  /**
   * A failure that is not a CustomException, with what PHP's Throwable
   * interface reports of it. `code` is `getCode()` as string concatenation
   * renders it: an integer for most exceptions, but an SQLSTATE such as
   * "42S22" or "01000" for a QueryException, which keeps the PDO code.
   */
  datatype Raw = Raw(kind: RawKind, message: string, code: string, origin: Origin)

  /** Anything a keeper may throw. */
  datatype Throwable = Classified(e: CustomException) | Unclassified(raw: Raw) {
    function Refs(): set<object> {
      if Classified? then {e} else {}
    }
  }

  /** What `getMessage`, `getCode` (rendered as text), `getFile`, `getLine` and `getTraceAsString` report. */
  datatype Info = Info(message: string, code: string, origin: Origin)

  function InfoOf(t: Throwable): Info
    reads t.Refs()
  {
    match t
    case Classified(e) => Info(e.message, IntToString(e.code), e.origin)
    case Unclassified(r) => Info(r.message, r.code, r.origin)
  }

  const DEFAULT_CODE: int := 500

  /** The class name `get_class` reports for a ProjectException. */
  const PROJECT_EXCEPTION: string := "Putchi\\StateKeepers\\Exceptions\\ProjectException"

  /** The line that closes both the string form of an exception and the guard's diagnostic. */
  const DELIMITER: string :=
    "<---------------------------------------------------------[O.o]--------------------------------------------------------->"

  /**
   * `setMessage`: a missing or blank message (blank in PHP's sense, so "0"
   * counts) becomes "Unknown <called class>"; any other is kept verbatim,
   * untrimmed. The stored message is never blank.
   */
  function NormalizeMessage(message: Option<string>, calledClass: string): (r: string)
    ensures !Blank(r)
    ensures message.Some? && !Blank(message.value) ==> r == message.value
    ensures message.None? || Blank(message.value) ==> r == "Unknown " + calledClass
  {
    if message.None? || Blank(message.value) then
      NotBlankWhenLed("Unknown " + calledClass);
      "Unknown " + calledClass
    else
      message.value
  }

  /**
   * `setType`: the trimmed, lower-cased type when that is one of the listed
   * severities, and "error" otherwise (missing, blank or unknown).
   */
  function NormalizeType(t: Option<string>): (r: string)
    ensures r in ERROR_TYPES
    ensures t.Some? && Lower(Trim(t.value)) in ERROR_TYPES ==> r == Lower(Trim(t.value))
    ensures t.None? || Lower(Trim(t.value)) !in ERROR_TYPES ==> r == DEFAULT_TYPE
  {
    if t.None? || Blank(t.value) || Lower(Trim(t.value)) !in ERROR_TYPES then
      DEFAULT_TYPE
    else
      Lower(Trim(t.value))
  }

  /** Every listed severity is already trimmed and lower-case. */
  lemma ListedTypeIsNormal(r: string)
    requires r in ERROR_TYPES
    ensures Lower(Trim(r)) == r
  {
    ListedAreLowerWords();
    var i :| 0 <= i < |ERROR_TYPES| && ERROR_TYPES[i] == r;
    LowerWordIsNormal(r);
  }

  lemma LowerWordIsNormal(s: string)
    requires LowerFrom(s, 0)
    ensures Lower(Trim(s)) == s
  {
    LowerFromLetters(s, 0);
    TrimNoop(s);
    LowerNoop(s);
  }

  /** Setting a type that `setType` produced leaves it as it is. */
  lemma {:induction false} NormalizeTypeIdempotent(t: Option<string>)
    ensures NormalizeType(Some(NormalizeType(t))) == NormalizeType(t)
  {
    ListedTypeIsNormal(NormalizeType(t));
  }

  /**
   * `setData`: a null or empty array is stored as [], any other array as it
   * is; so the stored array is exactly the argument, with null read as [].
   */
  function NormalizeData(d: Option<PhpArray>): (r: PhpArray)
    ensures d.Some? ==> r == d.value
    ensures d.None? ==> r == []
  {
    if d.None? || |d.value| == 0 then [] else d.value
  }

  /** What `getData` returns: the array itself, or its JSON text. */
  datatype DataView = AsArray(entries: PhpArray) | AsJson(text: string)

  /** The state `new C(message, type, code, data, previous)` leaves an exception of class `className` in. */
  ghost predicate Constructed(x: CustomException, className: string, origin: Origin, message: Option<string>,
                              typ: Option<string>, code: int, data: Option<PhpArray>, previous: Option<Throwable>)
    reads x
  {
    && x.className == className
    && x.origin == origin
    && x.message == NormalizeMessage(message, className)
    && x.typ == Some(NormalizeType(typ))
    && x.code == code
    && x.data == NormalizeData(data)
    && x.previous == previous
  }

  class CustomException {
    /** `get_class($this)`: CustomException itself is abstract, so this is a subclass's name. */
    const className: string
    /** File, line and trace, fixed by PHP where the exception is created. */
    const origin: Origin
    var message: string
    var code: int
    /** `_type`; None while the typed property is still uninitialised. */
    var typ: Option<string>
    var data: PhpArray
    var previous: Option<Throwable>

    /** What the constructor establishes and every setter keeps. */
    ghost predicate Valid()
      reads this
    {
      !Blank(message) && typ.Some? && typ.value in ERROR_TYPES
    }

    /** The constructor never fails: it runs the four setters, then records `previous`. */
    constructor (className: string, origin: Origin, message: Option<string> := None, typ: Option<string> := None,
                 code: int := DEFAULT_CODE, data: Option<PhpArray> := None, previous: Option<Throwable> := None)
      ensures Constructed(this, className, origin, message, typ, code, data, previous)
      ensures Valid()
    {
      this.className := className;
      this.origin := origin;
      this.typ := None;
      this.previous := None;
      new;
      SetMessage(message);
      SetType(typ);
      SetCode(code);
      SetData(data);
      this.previous := previous;
    }

    method SetMessage(m: Option<string> := None)
      modifies this`message
      ensures message == NormalizeMessage(m, className)
      ensures !Blank(message)
    {
      message := NormalizeMessage(m, className);
    }

    method SetCode(c: int := DEFAULT_CODE)
      modifies this`code
      ensures code == c
    {
      code := c;
    }

    method SetType(t: Option<string> := None)
      modifies this`typ
      ensures typ == Some(NormalizeType(t))
      ensures typ.value in ERROR_TYPES
    {
      typ := Some(NormalizeType(t));
    }

    method SetData(d: Option<PhpArray> := None)
      modifies this`data
      ensures data == NormalizeData(d)
    {
      data := NormalizeData(d);
    }

    /** `getType`: the stored type, or "error" while none is stored. */
    function GetType(): (r: string)
      reads this
      ensures typ.Some? ==> r == typ.value
      ensures typ.None? ==> r == DEFAULT_TYPE
      ensures Valid() ==> r in ERROR_TYPES
    {
      typ.GetOr(DEFAULT_TYPE)
    }

    /** `getData`: the stored array, or its `json_encode` when `stringify` is set. */
    function GetData(json: PhpArray -> string, stringify: bool := false): (r: DataView)
      reads this
      ensures r.AsJson? <==> stringify
      ensures r.AsArray? ==> r.entries == data
      ensures r.AsJson? ==> r.text == json(data)
    {
      if stringify then AsJson(json(data)) else AsArray(data)
    }

    /** The objects the previous exception, if any, lives in. */
    function PreviousRefs(): set<object>
      reads this
    {
      if previous.Some? then previous.value.Refs() else {}
    }

    /** `__toString`: class, message, origin, type, JSON data and trace, closed by DELIMITER. */
    function ToString(json: PhpArray -> string): (r: string)
      reads this
      ensures StartsWith(r, Headline())
      ensures EndsWith(r, DELIMITER)
    {
      var rest := Location() + TypeLine() + DataLine(json) + TraceLine();
      assert (Headline() + (rest + DELIMITER))[..|Headline()|] == Headline();
      Headline() + rest + DELIMITER
    }

    function Headline(): string
      reads this
    {
      "exception '" + className + "' with message '" + message + "'"
    }

    function Location(): string
      reads this
    {
      " in " + origin.file + ":" + IntToString(origin.line)
    }

    function TypeLine(): string
      reads this
    {
      "\nType:\n" + GetType() + "\n"
    }

    function DataLine(json: PhpArray -> string): string
      reads this
    {
      "Data:\n" + json(data) + "\n"
    }

    function TraceLine(): string
      reads this
    {
      "Stack trace:\n" + origin.trace + "\n"
    }

    /** The string form reports the type and the JSON data, each on a line of its own. */
    lemma ToStringReports(json: PhpArray -> string)
      ensures Contains(ToString(json), TypeLine())
      ensures Contains(ToString(json), DataLine(json))
    {
      var h, l, t, d, tr := Headline(), Location(), TypeLine(), DataLine(json), TraceLine();
      Regroup(h, l, t, d, tr, DELIMITER);
      ContainedIn(h + l, t, d + tr + DELIMITER);
      ContainedIn(h + l + t, d, tr + DELIMITER);
    }
  }

  /** Reassociation over opaque parts; stated apart so that the long literals stay out of the solver's way. */
  lemma Regroup(h: string, l: string, t: string, d: string, tr: string, z: string)
    ensures h + (l + t + d + tr) + z == (h + l) + t + (d + tr + z)
    ensures h + (l + t + d + tr) + z == (h + l + t) + d + (tr + z)
  {
  }

  /**
   * Re-throwing a valid classified exception as `new C(getMessage(), getType(), getCode(), ...)`
   * keeps its message, type and code.
   */
  lemma RebuildKeeps(ce: CustomException, x: CustomException, className: string, origin: Origin,
                     data: Option<PhpArray>, previous: Option<Throwable>)
    requires ce.Valid()
    requires Constructed(x, className, origin, Some(ce.message), Some(ce.GetType()), ce.code, data, previous)
    ensures x.message == ce.message && x.GetType() == ce.GetType() && x.code == ce.code
    ensures x.Valid()
  {
    ListedTypeIsNormal(ce.GetType());
  }
}
