/** Parse status values and their mutable builder
    (com.io7m.anethum.api: the ParseStatus record, its private Builder class
    and the ParseStatusBuilderType interface it implements). */
module Status {
  import opened Wrappers
  import opened Attributes

  /** Java's `int`, the type of a lexical position's line and column. */
  newtype Int32 = x: int | -0x8000_0000 <= x < 0x8000_0000

  /** The three severities a status can carry. */
  datatype Severity = ParseInfo | ParseWarning | ParseError

  /** A position in a source text: line, column and, optionally, the URI
      of the source. */
  datatype LexicalPosition = LexicalPosition(line: Int32, column: Int32, file: Option<string>)

  /** The zero position: line 0, column 0, no source. */
  const Zero := LexicalPosition(0, 0, None)

  /** An immutable parse status. `Ex` stands for the captured exception,
      which is only stored and handed back. */
  datatype ParseStatus<Ex> = ParseStatus(
    severity: Severity,
    lexical: LexicalPosition,
    errorCode: string,
    message: string,
    attributes: Table,
    remediatingAction: Option<string>,
    exception: Option<Ex>)

  /** The NullPointerException thrown by `Objects.requireNonNull`, carrying
      the name of the rejected component. */
  datatype NullPointer = NullPointer(name: string)

  /** The record's canonical constructor, with every argument a reference
      that may be null (`None`). The components are checked in declaration
      order; the first null one is reported. */
  function NewParseStatus<Ex>(
    severity: Option<Severity>,
    lexical: Option<LexicalPosition>,
    errorCode: Option<string>,
    message: Option<string>,
    attributes: Option<Table>,
    remediatingAction: Option<Option<string>>,
    exception: Option<Option<Ex>>): (r: Result<ParseStatus<Ex>, NullPointer>)
    ensures r.Success? <==>
      && severity.Some? && lexical.Some? && errorCode.Some? && message.Some?
      && attributes.Some? && remediatingAction.Some? && exception.Some?
    ensures r.Success? ==>
      && r.value.severity == severity.value
      && r.value.lexical == lexical.value
      && r.value.errorCode == errorCode.value
      && r.value.message == message.value
      && r.value.attributes == attributes.value
      && r.value.remediatingAction == remediatingAction.value
      && r.value.exception == exception.value
    ensures r == Failure(NullPointer("severity")) <==> severity.None?
    ensures r == Failure(NullPointer("lexical")) <==> severity.Some? && lexical.None?
    ensures r == Failure(NullPointer("errorCode")) <==>
      severity.Some? && lexical.Some? && errorCode.None?
    ensures r == Failure(NullPointer("message")) <==>
      severity.Some? && lexical.Some? && errorCode.Some? && message.None?
    ensures r == Failure(NullPointer("attributes")) <==>
      severity.Some? && lexical.Some? && errorCode.Some? && message.Some? && attributes.None?
    ensures r == Failure(NullPointer("remediatingAction")) <==>
      severity.Some? && lexical.Some? && errorCode.Some? && message.Some? && attributes.Some?
      && remediatingAction.None?
    ensures r == Failure(NullPointer("exception")) <==>
      severity.Some? && lexical.Some? && errorCode.Some? && message.Some? && attributes.Some?
      && remediatingAction.Some? && exception.None?
  {
    if severity.None? then Failure(NullPointer("severity"))
    else if lexical.None? then Failure(NullPointer("lexical"))
    else if errorCode.None? then Failure(NullPointer("errorCode"))
    else if message.None? then Failure(NullPointer("message"))
    else if attributes.None? then Failure(NullPointer("attributes"))
    else if remediatingAction.None? then Failure(NullPointer("remediatingAction"))
    else if exception.None? then Failure(NullPointer("exception"))
    else Success(ParseStatus(severity.value, lexical.value, errorCode.value, message.value,
                             attributes.value, remediatingAction.value, exception.value))
  }

  /** `ParseStatus.builder(errorCode, message)`: a new builder holding the
      defaults. */
  method NewBuilder<Ex>(errorCode: string, message: string) returns (b: Builder<Ex>)
    ensures fresh(b)
    ensures b.Current() == ParseStatus(ParseError, Zero, errorCode, message, map[], None, None)
  {
    b := new Builder(errorCode, message);
  }

  /** The mutable builder. The error code is a constant fixed by the
      constructor; every other component is a field that the `With`
      methods reassign, and each of them returns the builder itself. */
  class Builder<Ex> {
    const errorCode: string
    var attributes: Table
    var lexical: LexicalPosition
    var severity: Severity
    var message: string
    var remediatingAction: Option<string>
    var exception: Option<Ex>

    /** The status the builder would build now. */
    ghost function Current(): ParseStatus<Ex>
      reads this
    {
      ParseStatus(severity, lexical, errorCode, message, attributes, remediatingAction, exception)
    }

    constructor (inErrorCode: string, inMessage: string)
      ensures severity == ParseError
      ensures lexical == Zero
      ensures errorCode == inErrorCode && message == inMessage
      ensures attributes == map[]
      ensures remediatingAction == None && exception == None
    {
      lexical := Zero;
      severity := ParseError;
      errorCode := inErrorCode;
      message := inMessage;
      attributes := map[];
      remediatingAction := None;
      exception := None;
    }

    method WithSeverity(newSeverity: Severity) returns (r: Builder<Ex>)
      modifies this
      ensures r == this
      ensures Current() == old(Current()).(severity := newSeverity)
    {
      severity := newSeverity;
      r := this;
    }

    method WithLexical(newLexical: LexicalPosition) returns (r: Builder<Ex>)
      modifies this
      ensures r == this
      ensures Current() == old(Current()).(lexical := newLexical)
    {
      lexical := newLexical;
      r := this;
    }

    method WithMessage(newMessage: string) returns (r: Builder<Ex>)
      modifies this
      ensures r == this
      ensures Current() == old(Current()).(message := newMessage)
    {
      message := newMessage;
      r := this;
    }

    /** Adds or overwrites one attribute. */
    method WithAttribute(name: string, value: string) returns (r: Builder<Ex>)
      modifies this
      ensures r == this
      ensures Current() == old(Current()).(attributes := old(attributes)[name := value])
    {
      attributes := attributes[name := value];
      r := this;
    }

    /** The default method of ParseStatusBuilderType: one `WithAttribute`
        call per entry of `m`, in whatever order the map yields them. */
    method WithAttributes(m: Table) returns (r: Builder<Ex>)
      modifies this
      ensures r == this
      ensures Current() == old(Current()).(attributes := old(attributes) + m)
    {
      ghost var visited: seq<Entry> := [];
      var remaining := m.Keys;
      while remaining != {}
        invariant remaining <= m.Keys
        invariant Enumerates(visited, m - remaining)
        invariant Current() == old(Current()).(attributes := PutAll(old(attributes), visited))
        decreases remaining
      {
        var k :| k in remaining;
        var self := WithAttribute(k, m[k]);
        PutAllAppend(old(attributes), visited, (k, m[k]));
        EnumeratesExtend(visited, m - remaining, k, m[k]);
        assert (m - remaining)[k := m[k]] == m - (remaining - {k});
        visited := visited + [(k, m[k])];
        remaining := remaining - {k};
      }
      assert m - remaining == m;
      PutAllEnumeration(old(attributes), visited, m);
      r := this;
    }

    method WithRemediatingAction(newAction: string) returns (r: Builder<Ex>)
      modifies this
      ensures r == this
      ensures Current() == old(Current()).(remediatingAction := Some(newAction))
    {
      remediatingAction := Some(newAction);
      r := this;
    }

    method WithException(newException: Ex) returns (r: Builder<Ex>)
      modifies this
      ensures r == this
      ensures Current() == old(Current()).(exception := Some(newException))
    {
      exception := Some(newException);
      r := this;
    }

    /** A snapshot of the builder, made through the record constructor,
        whose null checks a builder can never trip. */
    method Build() returns (s: ParseStatus<Ex>)
      ensures s == Current()
      ensures NewParseStatus(Some(severity), Some(lexical), Some(errorCode), Some(message),
                             Some(attributes), Some(remediatingAction), Some(exception)) == Success(s)
    {
      var r := NewParseStatus(Some(severity), Some(lexical), Some(errorCode), Some(message),
                              Some(attributes), Some(remediatingAction), Some(exception));
      s := r.value;
    }
  }

  /** Building straight from `builder(errorCode, message)` gives the
      defaults: error severity, the zero position, no attributes, no
      remediating action, no exception. */
  method BuildDefault<Ex>(errorCode: string, message: string) returns (s: ParseStatus<Ex>)
    ensures s.severity == ParseError && s.lexical == Zero
    ensures s.errorCode == errorCode && s.message == message
    ensures s.attributes == map[]
    ensures s.remediatingAction.None? && s.exception.None?
  {
    var b := NewBuilder<Ex>(errorCode, message);
    s := b.Build();
  }

  /** The builder property: attributes added one by one from `attributes1`,
      then in bulk from `attributes2`, with the message replaced and an
      exception and a remediating action set. The built status keeps the
      original error code, the last message, and `attributes1` overridden
      by `attributes2`. */
  method BuildAll<Ex>(
    errorCode: string, message1: string, message2: string, action: string,
    attributes1: Table, attributes2: Table, exception: Ex) returns (status: ParseStatus<Ex>)
    ensures status == ParseStatus(ParseError, Zero, errorCode, message2,
                                  attributes1 + attributes2, Some(action), Some(exception))
  {
    var builder := NewBuilder<Ex>(errorCode, message1);
    var remaining := attributes1.Keys;
    while remaining != {}
      invariant remaining <= attributes1.Keys
      invariant builder.Current() ==
        ParseStatus(ParseError, Zero, errorCode, message1, attributes1 - remaining, None, None)
      decreases remaining
    {
      var k :| k in remaining;
      var self := builder.WithAttribute(k, attributes1[k]);
      assert (attributes1 - remaining)[k := attributes1[k]] == attributes1 - (remaining - {k});
      remaining := remaining - {k};
    }
    assert attributes1 - remaining == attributes1;
    builder := builder.WithAttributes(attributes2);
    builder := builder.WithMessage(message2);
    builder := builder.WithException(exception);
    builder := builder.WithRemediatingAction(action);
    status := builder.Build();
  }

  /** A built status is a copy: later changes to the builder's attribute
      table do not reach it. */
  method SnapshotIsolated<Ex>(b: Builder<Ex>, name: string, value: string)
    returns (before: ParseStatus<Ex>, after: ParseStatus<Ex>)
    modifies b
    ensures before == old(b.Current())
    ensures after == before.(attributes := before.attributes[name := value])
    ensures b.Current() == after
  {
    before := b.Build();
    var self := b.WithAttribute(name, value);
    after := b.Build();
  }
}
