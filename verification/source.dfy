/** The source text handed to the lexer: its body, a display name and the
    1-based (line, column) at which the body starts inside a larger document. */
module Sources {
  import opened Results

  datatype SourceLocation = SourceLocation(line: int, column: int)

  datatype Source = Source(body: string, name: string, locationOffset: SourceLocation)

  /** Construction failure: an offset field that is not 1-based. */
  datatype ConfigError = ConfigError(message: string)

  const DefaultName: string := "GraphQL request"
  const DefaultOffset: SourceLocation := SourceLocation(1, 1)

  const LineOffsetMessage: string := "line in location_offset is 1-indexed and must be positive."
  const ColumnOffsetMessage: string := "column in location_offset is 1-indexed and must be positive."

  /** A source whose offset is 1-based in both fields. */
  predicate ValidOffset(offset: SourceLocation) {
    offset.line > 0 && offset.column > 0
  }

  /** The `Source` constructor: the line offset is checked before the column
      offset, and a valid source stores its arguments unchanged. */
  function NewSource(body: string, name: string, offset: SourceLocation): (r: Result<Source, ConfigError>)
    ensures r.Success? <==> ValidOffset(offset)
    ensures r.Success? ==> r.value.body == body && r.value.name == name && r.value.locationOffset == offset
    ensures offset.line <= 0 ==> r == Failure(ConfigError(LineOffsetMessage))
    ensures offset.line > 0 && offset.column <= 0 ==> r == Failure(ConfigError(ColumnOffsetMessage))
  {
    if offset.line <= 0 then Failure(ConfigError(LineOffsetMessage))
    else if offset.column <= 0 then Failure(ConfigError(ColumnOffsetMessage))
    else Success(Source(body, name, offset))
  }

  /** `Source(body)` with the default name and the default offset (1, 1):
      construction cannot fail. */
  function NewDefaultSource(body: string): (r: Result<Source, ConfigError>)
    ensures r.Success?
    ensures r.value.body == body
    ensures r.value.name == "GraphQL request"
    ensures r.value.locationOffset.line == 1 && r.value.locationOffset.column == 1
  {
    NewSource(body, DefaultName, DefaultOffset)
  }
}
