# anethum parse status: a Dafny model

This project models the diagnostic core of the anethum parser/serializer
API (io7m):

- the immutable `ParseStatus` record (severity, lexical position, error
  code, message, attribute table, optional remediating action, optional
  exception), including its constructor's null checks;
- the mutable builder returned by `ParseStatus.builder(errorCode, message)`,
  with its `with*` setters, the `withAttributes` default method of
  `ParseStatusBuilderType`, and `build()`;
- `ParseStatusLogging.logMinimal` and `logWithErrorCode`, which turn a status
  into exactly one SLF4J call.

Files:

- `wrappers.dfy` (module `Wrappers`): `Option` (for `java.util.Optional` and
  for a reference that may be null) and `Result`.
- `attributes.dfy` (module `Attributes`): the attribute table as a
  `map<string, string>`, `PutAll` (a run of `withAttribute` calls) and the
  lemmas that a run over any enumeration of a map equals map override.
- `parse_status.dfy` (module `Status`): the `ParseStatus` datatype, the
  record constructor as a function over nullable arguments, and the builder
  as a class `Builder` whose fields the setter methods reassign. The error
  code is a `const` field, set only by the constructor. `Current()` is the
  status the builder would build now; every setter states the new
  `Current()` as the old one with exactly one component replaced, and
  returns `this`. `withAttributes` is a loop that picks the map's keys in an
  unspecified order and calls `WithAttribute` for each.
- `logging.dfy` (module `Logging`): a logger call becomes a value
  `LogEvent(level, template, args)`; the two logging functions, the count
  of `{}` anchors in a template, and lemmas relating the two variants.

Modelling choices:

- `Throwable` is the type parameter `Ex`; it is only stored and returned.
- `LexicalPosition<URI>` (from jlexing) is a datatype with a 32-bit `line`
  and `column` and an optional source URI, kept as a string. jlexing's
  `LexicalPositions.zero()` is not part of this model; `Zero` is the
  documented zero position: line 0, column 0, no source.
- `ParseSeverity` is not part of this model beyond its three constants
  `PARSE_INFO`, `PARSE_WARNING` and `PARSE_ERROR`.
- The record's seven `Objects.requireNonNull` checks are modelled by
  `NewParseStatus`: each argument is an `Option` (`None` is null), the
  checks run in declaration order, and the first null component is reported
  by name, as the NullPointerException message does.
- `Map.copyOf` in `build()` is modelled by value semantics: the built
  status holds a `map` value, which later builder updates cannot reach.
  `Build` goes through `NewParseStatus`, as `build()` goes through the
  record constructor.

## Model

| member | source | states |
|---|---|---|
| `Status.NewParseStatus` | com.io7m.anethum.api/src/main/java/com/io7m/anethum/api/ParseStatus.java:63-72 | a status is built exactly when all seven components are non-null, and then holds them unchanged; otherwise the failure names the first null component in declaration order |
| `Status.NewBuilder` | com.io7m.anethum.api/src/main/java/com/io7m/anethum/api/ParseStatus.java:83-88 | `builder(errorCode, message)` returns a new builder holding the defaults and the given code and message |
| `Status.Builder.constructor` | com.io7m.anethum.api/src/main/java/com/io7m/anethum/api/ParseStatus.java:101-119 | a new builder has severity PARSE_ERROR, the zero position, no attributes, no remediating action, no exception, and exactly the given error code and message |
| `Status.Builder.WithSeverity` | com.io7m.anethum.api/src/main/java/com/io7m/anethum/api/ParseStatus.java:121-127 | replaces the severity and nothing else; returns the same builder |
| `Status.Builder.WithLexical` | com.io7m.anethum.api/src/main/java/com/io7m/anethum/api/ParseStatus.java:129-135 | replaces the lexical position and nothing else; returns the same builder |
| `Status.Builder.WithMessage` | com.io7m.anethum.api/src/main/java/com/io7m/anethum/api/ParseStatus.java:137-143 | replaces the message and nothing else; returns the same builder |
| `Status.Builder.WithAttribute` | com.io7m.anethum.api/src/main/java/com/io7m/anethum/api/ParseStatus.java:145-155 | the table becomes the old table with `name` mapped to `value` (a duplicate key is overwritten); nothing else changes; returns the same builder |
| `Status.Builder.WithRemediatingAction` | com.io7m.anethum.api/src/main/java/com/io7m/anethum/api/ParseStatus.java:157-163 | the remediating action becomes present with the given value; nothing else changes; returns the same builder |
| `Status.Builder.WithException` | com.io7m.anethum.api/src/main/java/com/io7m/anethum/api/ParseStatus.java:165-171 | the exception becomes present with the given value; nothing else changes; returns the same builder |
| `Status.Builder.Build` | com.io7m.anethum.api/src/main/java/com/io7m/anethum/api/ParseStatus.java:173-185 | returns a status whose components equal the builder's current fields, including the error code given at construction, and that the record constructor accepts (no null check fails); the builder is not changed (the method has no modifies clause) |
| `Status.Builder.WithAttributes` | com.io7m.anethum.api/src/main/java/com/io7m/anethum/api/ParseStatusBuilderType.java:87-94 | calling `WithAttribute` once per entry of `m`, in any order, leaves the table equal to the old table overridden by `m` (so an empty `m` changes nothing); no other component changes; returns the same builder |
| `Status.BuildDefault` | com.io7m.anethum.api/src/main/java/com/io7m/anethum/api/ParseStatus.java:101-119 | building straight from a fresh builder yields severity PARSE_ERROR, the zero position, no attributes, no remediating action, no exception, and the given code and message |
| `Status.BuildAll` | com.io7m.anethum.tests/src/test/java/com/io7m/anethum/tests/ParseStatusTest.java:54-88 | after one-by-one inserts of `attributes1`, a bulk insert of `attributes2`, a new message, an exception and an action, the built status has the original code, the last message, `attributes1 + attributes2` (the later map wins), and the exception and action present |
| `Status.SnapshotIsolated` | com.io7m.anethum.api/src/main/java/com/io7m/anethum/api/ParseStatus.java:173-185 | a status built before a further `withAttribute` call still equals the builder's state at the time it was built; a second build shows the update |
| `Attributes.PutAllAppend` | com.io7m.anethum.api/src/main/java/com/io7m/anethum/api/ParseStatus.java:145-155 | one more `withAttribute` after a run of them overwrites only its own key: the last write wins |
| `Attributes.PutAllEnumeration` | com.io7m.anethum.api/src/main/java/com/io7m/anethum/api/ParseStatusBuilderType.java:87-94 | a run of `withAttribute` calls that visits every entry of `m` once equals map override `table + m` |
| `Attributes.PutAllOrderIrrelevant` | com.io7m.anethum.api/src/main/java/com/io7m/anethum/api/ParseStatusBuilderType.java:90-92 | the table after the loop of `withAttributes` does not depend on the order in which the entries are visited |
| `Logging.LogMinimal` | com.io7m.anethum.slf4j/src/main/java/com/io7m/anethum/slf4j/ParseStatusLogging.java:41-71 | every status gives one event, at the level `LevelOf` its severity, with the minimal template and the arguments line, column, message |
| `Logging.LogWithErrorCode` | com.io7m.anethum.slf4j/src/main/java/com/io7m/anethum/slf4j/ParseStatusLogging.java:80-113 | every status gives one event, at the level `LevelOf` its severity, with the error-code template and the arguments line, column, error code, message |
| `Logging.MinimalAnchorsMatchArgs` | com.io7m.anethum.slf4j/src/main/java/com/io7m/anethum/slf4j/ParseStatusLogging.java:47-52 | the minimal template has as many `{}` anchors as arguments are passed with it |
| `Logging.ErrorCodeAnchorsMatchArgs` | com.io7m.anethum.slf4j/src/main/java/com/io7m/anethum/slf4j/ParseStatusLogging.java:86-92 | the error-code template has as many `{}` anchors as arguments are passed with it |
| `Logging.LevelOfOneToOne` | com.io7m.anethum.slf4j/src/main/java/com/io7m/anethum/slf4j/ParseStatusLogging.java:45-70 | the severity-to-level mapping is one to one and onto: info, warn and error each belong to exactly one severity |
| `Logging.LogVariantsAgree` | com.io7m.anethum.slf4j/src/main/java/com/io7m/anethum/slf4j/ParseStatusLogging.java:84-112 | both variants pick the same level for a status, and their argument lists differ only by the error code inserted in third position |
| `Logging.LogMinimalIgnoresErrorCode` | com.io7m.anethum.slf4j/src/main/java/com/io7m/anethum/slf4j/ParseStatusLogging.java:47-52 | the minimal event depends only on severity, line, column and message; the error code does not reach it |
| `Logging.LogWithErrorCodeShowsErrorCode` | com.io7m.anethum.slf4j/src/main/java/com/io7m/anethum/slf4j/ParseStatusLogging.java:86-92 | statuses with different error codes give different error-code events |

## Left out

- Status.NewParseStatus: the record constructor stores the caller's `Map` reference without copying it and never looks inside it, so a record made directly (not through `build()`) changes when the caller later updates that map, and its map may hold null keys or values; the model takes the table as a value of non-null strings and captures neither. Only `build()`, through `Map.copyOf`, yields a truly immutable table.
- Status.Builder.WithAttributes: the result `old + m` and its independence of iteration order are claimed only for maps without null keys or values; with a null entry, `withAttribute` throws partway through the loop, and the entries already visited (which depend on the iteration order) stay in the table.
- ParserFactoryType and SerializerFactoryType: file and stream I/O (opening files, deriving URIs, closing streams) with one-line delegation to a primitive; nothing in them is modelled.
- The SLF4J logger: a call is returned as a `LogEvent` value; message formatting and substitution of the arguments into the template are not modelled.
- `logWithAll`: a test calls it, but it does not exist in ParseStatusLogging, so it is not modelled.
- Null arguments to `builder(...)` and to the builder's setters: Dafny strings and values cannot be null, so the `requireNonNull` and `Optional.of` rejections there are not modelled (the record constructor's checks are, by `NewParseStatus`).
- The ParseStatusType and ParseSeverity interfaces/enums are not part of this model beyond the accessors and constants used above; `Builder` is the only implementation of the builder interface, and `withAttributes` is a method of it.
- Java `HashMap` iteration order and `Map.copyOf` internals: the loop in `WithAttributes` visits keys in an unspecified order, and a `map` value stands for the immutable copy.
- `Throwable` identity and contents: the exception is an opaque type parameter.
