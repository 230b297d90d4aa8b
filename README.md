# state-keepers, modelled in Dafny

A model of the core of the PHP package `putchi/state-keepers`.

`StateManager::guard` runs one unit of work through every configured state keeper, in list order. It keeps the first non-null result. The first failure stops the loop:
- the failure is logged exactly once, with a diagnostic text;
- a `CustomException` (of any subclass) goes to the caller's handler as it is; without a handler, it is re-thrown as a new `ProjectException` that wraps it;
- any other failure is wrapped in a `ProjectException`. That exception goes to the handler or is thrown. There is one exception: for a `QueryException` with a handler, the handler gets a second `ProjectException` that carries the translated message and wraps the first.

The exceptions the package defines, `CustomException` and its subclass `ProjectException`, normalise their message, severity type, code and data when they are built.

Modules:

- `Wrappers`: `Option`.
- `PhpText`: the PHP string built-ins the core relies on:
  - `trim` with its default character set;
  - `empty` on strings, where "" and "0" are empty;
  - ASCII `strtolower`;
  - decimal rendering of integers;
  - substring containment.
- `Severities`: the nine severity types the exceptions accept. These are the eight PSR-3 levels plus `log`, the name of the logger's generic method.
- `Exceptions`: `CustomException` as a class whose setters update its fields. Alongside it:
  - the normalising functions that specify those setters;
  - the value types for PHP arrays, exception origins (file, line, trace) and foreign failures.
- `MysqlErrors`: the MySQL driver-code table of the `QueryException` branch, and the duplicate-entry pattern.
- `StateManager`: the keeper loop, the catch blocks in their order, `constructMessage`, and `guard` itself.

Things outside the core are parameters:
- The foreign functions the guard calls are fields of a `Host` value. These are `trans`, `json_encode`, and the column pattern of error 1406.
- The place where PHP records an exception's file and line is the `site` parameter.
- The configured keepers are a sequence of outcomes, one per invocation.

## Model

| member | source | states |
|---|---|---|
| PhpText.TrimSpec | src/Exceptions/CustomException.php:81 | `trim` keeps one contiguous slice of its argument; everything dropped before and after it is a trim character; the slice neither starts nor ends with one |
| Exceptions.NormalizeMessage | src/Exceptions/CustomException.php:56-64 | a missing or blank message becomes "Unknown <class>"; any other is kept verbatim; the result is never blank |
| Exceptions.NormalizeType | src/Exceptions/CustomException.php:80-88 | the result is always one of the nine severities: the trimmed lower-cased argument when listed, "error" otherwise |
| Exceptions.ListedTypeIsNormal | src/Exceptions/CustomException.php:21-31 | every listed severity is already trimmed and lower-case |
| Exceptions.NormalizeTypeIdempotent | src/Exceptions/CustomException.php:80-88 | setting a type that `setType` produced leaves it unchanged |
| Exceptions.NormalizeData | src/Exceptions/CustomException.php:102-116 | the stored array is the argument, with null read as the empty array |
| Exceptions.CustomException.constructor | src/Exceptions/CustomException.php:42-50 | the new exception holds the normalised message, type, code and data and the given previous; message non-blank, type listed |
| Exceptions.CustomException.SetMessage | src/Exceptions/CustomException.php:56-64 | stores the normalised message, which is never blank; no other field changes |
| Exceptions.CustomException.SetCode | src/Exceptions/CustomException.php:70-74 | stores the code as given, 500 by default; no other field changes |
| Exceptions.CustomException.SetType | src/Exceptions/CustomException.php:80-88 | stores the normalised type, always a listed severity; no other field changes |
| Exceptions.CustomException.SetData | src/Exceptions/CustomException.php:102-116 | stores the normalised data; no other field changes |
| Exceptions.CustomException.GetType | src/Exceptions/CustomException.php:94-96 | the stored type as it is; "error" while no type is stored; a listed severity on every constructed exception |
| Exceptions.CustomException.GetData | src/Exceptions/CustomException.php:122-128 | the stored array, or exactly its JSON text when asked to stringify |
| Exceptions.CustomException.ToString | src/Exceptions/CustomException.php:133-139 | starts with the class-and-message headline and ends with the delimiter line |
| Exceptions.CustomException.ToStringReports | src/Exceptions/CustomException.php:135-136 | the string form contains the type line and the JSON data line |
| Exceptions.RebuildKeeps | src/StateManager.php:62 | re-building a valid exception from its own message, type and code keeps all three |
| MysqlErrors.QueryTranslation | src/StateManager.php:81-118 | which message key each driver code gets, in both directions; the parameters of each key; 503 exactly for unlisted codes |
| MysqlErrors.DuplicateEntryComplete | src/StateManager.php:100-102 | every detail text of the form `..'value'..'field'` matches, with the value and the field as its groups |
| MysqlErrors.DuplicateEntrySound | src/StateManager.php:100-105 | a match implies that form: exactly four apostrophes, the last one ending the text or followed only by a final newline |
| MysqlErrors.JoinOfPieces | src/StateManager.php:100 | splitting a text at its apostrophes loses nothing |
| StateManager.FirstFailure | src/StateManager.php:45-55 | the first throwing keeper invocation, with every earlier one returning; none exactly when all return |
| StateManager.FirstNonNullIsFirst | src/StateManager.php:49-51 | the canonical result is the first non-null result in keeper order |
| StateManager.FirstNonNullNone | src/StateManager.php:49-54 | the canonical result is null exactly when no keeper returned a non-null result |
| StateManager.FirstNonNullSnoc | src/StateManager.php:49-51 | a later keeper's result replaces the slot only while the slot holds null |
| StateManager.AdditionalData | src/StateManager.php:194-196 | blank JSON data is reported as "Not available"; other data verbatim |
| StateManager.Diagnostic | src/StateManager.php:213-224 | the diagnostic starts with the `[StateGuard]` header line and ends with the delimiter line |
| StateManager.ConstructMessageReports | src/StateManager.php:198-218 | the diagnostic holds the custom lines, and the message and code of the previous exception when there is one (its own otherwise) |
| StateManager.Classify | src/StateManager.php:55-171 | each catch branch, in order: the exception that leaves the guard, its message, type, code, data and previous, and the log severity and text |
| StateManager.Guard | src/StateManager.php:39-179 | keepers run in order until one throws; all succeed: the first non-null result, nothing logged; a failure: exactly one log entry, and the wrapped exception goes to the handler or is raised |
| StateManager.ClassifiedRethrowKeeps | src/StateManager.php:55-63 | a classified exception re-thrown without a handler keeps its message, type and code, drops its data, wraps the original, and is logged at its own severity |

## Left out

- I/O and configuration: `config('state.stateKeepers')`, the `Log` facade and `trans` are not called. The keepers are given as their outcomes. The log is returned as a sequence. `trans` is an uninterpreted function of the message key and its parameters.
- `json_encode` is an uninterpreted function of the data array. Encoding failures (`false`) are not modelled.
- The pattern of error 1406 (`src/StateManager.php:109`) is an uninterpreted extractor. Only the duplicate-entry pattern is modelled character by character.
- A keeper's own behaviour is not modelled. `src/Keepers` and `StateKeepersServiceProvider.php` are not part of this model. Each invocation is just "returned this value" or "threw this".
- With no keeper configured, reading the unset `$returnValue['final']` ends in `NoResult`. A host that turns PHP notices into `ErrorException` would take the `ErrorException` branch instead.
- Only `CustomException` instances reach `constructMessage` from `guard`, so its branch for other throwables (`src/StateManager.php:190-192`) is not modelled.
- A foreign failure's own `previous` chain is not modelled. Its message, code and origin are values.
- The wrapping `ProjectException` of a `QueryException` takes the driver code `errorInfo[1]` as its code, modelled as an integer. A missing driver code (null) is not modelled. The `QueryException`'s own `getCode()`, an SQLSTATE such as "42S22", is kept as text and reported verbatim on the diagnostic's "Original Code" line.
- `setData` with an object, string or number (`src/Exceptions/CustomException.php:106-109`) is not modelled. The `array` type hint rejects such arguments before the body runs.
- The trailing `return false` (`src/StateManager.php:178`) is not modelled, because it is unreachable.
- Not modelled:
  - a handler that throws;
  - a handler's other side effects;
  - an error thrown while the log line is written. One such case: when the severity is `log`, line 174 calls `Log::log($msg)`, and Laravel's `log` takes the level and the message as two arguments. So the `finally` block would throw instead of logging, and that error would replace the guard's outcome. The model logs the entry as for every other severity. This reading of Laravel's logger has not been run.
- Exceptions.CustomException.SetMessage: the setters' `return $this` (method chaining) is not modelled; each setter returns nothing.
