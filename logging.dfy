/** Logging of parse status values (com.io7m.anethum.slf4j). A call to an
    SLF4J logger is modelled as the event it would receive: the level method
    called, the message template and the positional arguments. */
module Logging {
  import opened Status

  /** The logger methods used: `info`, `warn` and `error`. */
  datatype Level = Info | Warn | Error

  /** A positional argument: a boxed `Integer` or a `String`. */
  datatype Arg = IntArg(i: Int32) | StringArg(s: string)

  datatype LogEvent = LogEvent(level: Level, template: string, args: seq<Arg>)

  /** The logger level that corresponds to a severity. */
  function LevelOf(severity: Severity): Level
  {
    match severity
    case ParseInfo => Info
    case ParseWarning => Warn
    case ParseError => Error
  }

  /** The number of `{}` anchors in an SLF4J template, scanned left to right. */
  function Anchors(template: string): nat
    decreases |template|
  {
    if |template| < 2 then 0
    else if template[0] == '{' && template[1] == '}' then 1 + Anchors(template[2..])
    else Anchors(template[1..])
  }

  /** An anchor at the front of a template adds one to the count. */
  lemma AnchorsOpen(t: string)
    ensures Anchors("{}" + t) == 1 + Anchors(t)
  {
    assert ("{}" + t)[2..] == t;
  }

  /** A character other than `{` at the front of a template adds nothing. */
  lemma AnchorsSkip(c: char, t: string)
    requires c != '{'
    ensures Anchors([c] + t) == Anchors(t)
  {
    assert ([c] + t)[1..] == t;
  }

  const MinimalTemplate := "{}:{}: {}"
  const ErrorCodeTemplate := "{}:{}: {}: {}"

  /** `logMinimal`: position and message at the level of the severity. */
  function LogMinimal<Ex>(status: ParseStatus<Ex>): (e: LogEvent)
    ensures e.level == LevelOf(status.severity)
    ensures e.template == MinimalTemplate
    ensures e.args == [IntArg(status.lexical.line), IntArg(status.lexical.column), StringArg(status.message)]
  {
    match status.severity
    case ParseInfo =>
      LogEvent(Info, MinimalTemplate,
        [IntArg(status.lexical.line), IntArg(status.lexical.column), StringArg(status.message)])
    case ParseWarning =>
      LogEvent(Warn, MinimalTemplate,
        [IntArg(status.lexical.line), IntArg(status.lexical.column), StringArg(status.message)])
    case ParseError =>
      LogEvent(Error, MinimalTemplate,
        [IntArg(status.lexical.line), IntArg(status.lexical.column), StringArg(status.message)])
  }

  /** `logWithErrorCode`: position, error code and message at the level of
      the severity. */
  function LogWithErrorCode<Ex>(status: ParseStatus<Ex>): (e: LogEvent)
    ensures e.level == LevelOf(status.severity)
    ensures e.template == ErrorCodeTemplate
    ensures e.args == [IntArg(status.lexical.line), IntArg(status.lexical.column),
                       StringArg(status.errorCode), StringArg(status.message)]
  {
    match status.severity
    case ParseInfo =>
      LogEvent(Info, ErrorCodeTemplate,
        [IntArg(status.lexical.line), IntArg(status.lexical.column),
         StringArg(status.errorCode), StringArg(status.message)])
    case ParseWarning =>
      LogEvent(Warn, ErrorCodeTemplate,
        [IntArg(status.lexical.line), IntArg(status.lexical.column),
         StringArg(status.errorCode), StringArg(status.message)])
    case ParseError =>
      LogEvent(Error, ErrorCodeTemplate,
        [IntArg(status.lexical.line), IntArg(status.lexical.column),
         StringArg(status.errorCode), StringArg(status.message)])
  }

  /** The minimal template has one anchor per argument passed with it. */
  lemma {:induction false} MinimalAnchorsMatchArgs<Ex>(status: ParseStatus<Ex>)
    ensures Anchors(LogMinimal(status).template) == |LogMinimal(status).args|
  {
    var t0: string := [];
    var t1 := "{}" + t0;  AnchorsOpen(t0);
    var t2 := [' '] + t1; AnchorsSkip(' ', t1);
    var t3 := [':'] + t2; AnchorsSkip(':', t2);
    var t4 := "{}" + t3;  AnchorsOpen(t3);
    var t5 := [':'] + t4; AnchorsSkip(':', t4);
    var t6 := "{}" + t5;  AnchorsOpen(t5);
    assert Anchors(t6) == 3;
    assert t6 == MinimalTemplate;
  }

  /** The error-code template has one anchor per argument passed with it. */
  lemma {:induction false} ErrorCodeAnchorsMatchArgs<Ex>(status: ParseStatus<Ex>)
    ensures Anchors(LogWithErrorCode(status).template) == |LogWithErrorCode(status).args|
  {
    var t0: string := [];
    var t1 := "{}" + t0;  AnchorsOpen(t0);
    var t2 := [' '] + t1; AnchorsSkip(' ', t1);
    var t3 := [':'] + t2; AnchorsSkip(':', t2);
    var t4 := "{}" + t3;  AnchorsOpen(t3);
    var t5 := [' '] + t4; AnchorsSkip(' ', t4);
    var t6 := [':'] + t5; AnchorsSkip(':', t5);
    var t7 := "{}" + t6;  AnchorsOpen(t6);
    var t8 := [':'] + t7; AnchorsSkip(':', t7);
    var t9 := "{}" + t8;  AnchorsOpen(t8);
    assert Anchors(t9) == 4;
    assert t9 == ErrorCodeTemplate;
  }

  /** Distinct severities are logged at distinct levels, and every level
      is used by some severity. */
  lemma LevelOfOneToOne(a: Severity, b: Severity, level: Level)
    ensures LevelOf(a) == LevelOf(b) <==> a == b
    ensures exists s :: LevelOf(s) == level
  {
    match level
    case Info => assert LevelOf(ParseInfo) == level;
    case Warn => assert LevelOf(ParseWarning) == level;
    case Error => assert LevelOf(ParseError) == level;
  }

  /** Both variants log a status at the same level; the error-code variant
      passes the minimal variant's arguments with the error code inserted
      in third position. */
  lemma LogVariantsAgree<Ex>(status: ParseStatus<Ex>)
    ensures LogWithErrorCode(status).level == LogMinimal(status).level
    ensures LogWithErrorCode(status).args ==
      LogMinimal(status).args[..2] + [StringArg(status.errorCode)] + LogMinimal(status).args[2..]
  {
  }

  /** The minimal variant does not show the error code: two statuses that
      agree on severity, line, column and message give the same event. */
  lemma LogMinimalIgnoresErrorCode<Ex>(a: ParseStatus<Ex>, b: ParseStatus<Ex>)
    requires a.severity == b.severity && a.message == b.message
    requires a.lexical.line == b.lexical.line && a.lexical.column == b.lexical.column
    ensures LogMinimal(a) == LogMinimal(b)
  {
  }

  /** The error-code variant does show it: statuses with different error
      codes give different events. */
  lemma LogWithErrorCodeShowsErrorCode<Ex>(a: ParseStatus<Ex>, b: ParseStatus<Ex>)
    requires a.errorCode != b.errorCode
    ensures LogWithErrorCode(a) != LogWithErrorCode(b)
  {
    assert LogWithErrorCode(a).args[2] != LogWithErrorCode(b).args[2];
  }
}
