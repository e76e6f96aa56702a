/**
 * The error records of the project explorer (baseerror.hpp, baseerror.cpp): a BaseError
 * object with five fields and its setters, the value copies that error lists hold, and
 * the conversion of the DSL parser's and the QML engine's errors into BaseErrors.
 * A QUrl is kept as the string it was made from.
 */
module BaseErrors {
  import opened Wrappers

  // BaseError::ErrorType, in declaration order.
  const UnknownError := 0
  const FileError := 1
  const DuplicateError := 2
  const SyntaxError := 3
  const AmbiguityError := 4
  const ContextError := 5
  const SensitivityError := 6
  const BaseUserType := 7

  /** A BaseError as a value: what a QList<BaseError> holds, since the list stores copies. */
  datatype ErrorRecord = ErrorRecord(errorType: int, description: string, url: string, line: int, column: int)
  {
    /** `toString`: an empty string with the description appended. */
    function ToString(): (s: string)
      ensures s == description
    {
      [] + description
    }
  }

  /** A BaseError object; its accessors are reads of the fields. */
  class BaseError {
    var errorType: int
    var description: string
    var url: string
    var line: int
    var column: int

    /** The five fields as a value. */
    function Value(): ErrorRecord
      reads this
    {
      ErrorRecord(errorType, description, url, line, column)
    }

    /**
     * `BaseError(errorType)`: only the type is initialised; the description and the url
     * start empty, the line and the column hold whatever the memory held.
     */
    constructor (errorType: int)
      ensures this.errorType == errorType && description == [] && url == []
    {
      this.errorType := errorType;
      description := [];
      url := [];
    }

    /** The copy constructor copies all five fields. */
    constructor Copy(origin: BaseError)
      ensures Value() == origin.Value()
    {
      errorType := origin.errorType;
      description := origin.description;
      url := origin.url;
      line := origin.line;
      column := origin.column;
    }

    method SetErrorType(errorType: int)
      modifies this
      ensures Value() == old(Value()).(errorType := errorType)
    {
      this.errorType := errorType;
    }

    method SetDescription(description: string)
      modifies this
      ensures Value() == old(Value()).(description := description)
    {
      this.description := description;
    }

    method SetUrl(url: string)
      modifies this
      ensures Value() == old(Value()).(url := url)
    {
      this.url := url;
    }

    method SetLine(line: int)
      modifies this
      ensures Value() == old(Value()).(line := line)
    {
      this.line := line;
    }

    method SetColumn(column: int)
      modifies this
      ensures Value() == old(Value()).(column := column)
    {
      this.column := column;
    }

    /** `toString`: the description, appended to an empty string. */
    method ToString() returns (s: string)
      ensures s == description
    {
      s := [];
      s := s + description;
    }
  }

  /** The kinds of dslparser::DslError that the conversion names; any other kind is `DslOtherError`. */
  datatype DslErrorType =
    | DslSyntaxError | DslAmbiguityError | DslContextError | DslSensitivityError
    | DslFileError | DslUnknownError | DslOtherError(code: int)

  /** What the conversion reads of a dslparser::DslError. */
  datatype DslError = DslError(errorType: DslErrorType, message: string, line: int, charPositionInLine: int)

  /** What `qmlError2baseError` reads of a QQmlError. */
  datatype QmlError = QmlError(description: string, url: string, line: int, column: int)

  /**
   * The error type `dslError2baseError` gives: each named DSL kind becomes the BaseError
   * type of the same name; any other kind keeps the constructor's default UnknownError.
   */
  function BaseTypeOf(t: DslErrorType): (r: int)
    ensures UnknownError <= r < BaseUserType && r != DuplicateError
    ensures t.DslOtherError? ==> r == UnknownError
  {
    if t == DslSyntaxError then SyntaxError
    else if t == DslAmbiguityError then AmbiguityError
    else if t == DslContextError then ContextError
    else if t == DslSensitivityError then SensitivityError
    else if t == DslFileError then FileError
    else UnknownError
  }

  /** The named DSL kind that a BaseError type comes from, if any: the inverse of the mapping. */
  function DslTypeOf(r: int): Option<DslErrorType> {
    if r == SyntaxError then Some(DslSyntaxError)
    else if r == AmbiguityError then Some(DslAmbiguityError)
    else if r == ContextError then Some(DslContextError)
    else if r == SensitivityError then Some(DslSensitivityError)
    else if r == FileError then Some(DslFileError)
    else if r == UnknownError then Some(DslUnknownError)
    else None
  }

  /** The record `dslError2baseError(e, errorFileName)` returns. */
  function DslRecord(e: DslError, errorFileName: string): ErrorRecord {
    ErrorRecord(BaseTypeOf(e.errorType), e.message, errorFileName, e.line, e.charPositionInLine)
  }

  /** The mapping loses nothing on the named kinds: it can be undone. */
  lemma BaseTypeOfRoundTrip(t: DslErrorType)
    requires !t.DslOtherError?
    ensures DslTypeOf(BaseTypeOf(t)) == Some(t)
  {
  }

  /** Hence two named kinds never map to the same BaseError type. */
  lemma BaseTypeOfInjective(a: DslErrorType, b: DslErrorType)
    requires !a.DslOtherError? && !b.DslOtherError? && BaseTypeOf(a) == BaseTypeOf(b)
    ensures a == b
  {
    BaseTypeOfRoundTrip(a);
    BaseTypeOfRoundTrip(b);
  }

  /**
   * `dslError2baseError`: a default BaseError, its type set when the DSL kind is one of
   * the six named ones, then the message, the file name, the line and the character
   * position copied in.
   */
  method DslErrorToBase(e: DslError, errorFileName: string) returns (r: ErrorRecord)
    ensures r.errorType == BaseTypeOf(e.errorType)
    ensures r.description == e.message && r.url == errorFileName
    ensures r.line == e.line && r.column == e.charPositionInLine
  {
    var baseError := new BaseError(UnknownError);
    if e.errorType == DslSyntaxError {
      baseError.SetErrorType(SyntaxError);
    } else if e.errorType == DslAmbiguityError {
      baseError.SetErrorType(AmbiguityError);
    } else if e.errorType == DslContextError {
      baseError.SetErrorType(ContextError);
    } else if e.errorType == DslSensitivityError {
      baseError.SetErrorType(SensitivityError);
    } else if e.errorType == DslFileError {
      baseError.SetErrorType(FileError);
    } else if e.errorType == DslUnknownError {
      baseError.SetErrorType(UnknownError);
    }
    baseError.SetDescription(e.message);
    baseError.SetUrl(errorFileName);
    baseError.SetLine(e.line);
    baseError.SetColumn(e.charPositionInLine);
    r := baseError.Value();
  }

  /** `qmlError2baseError`: an UnknownError carrying the QML error's description, url and position. */
  method QmlErrorToBase(e: QmlError) returns (r: ErrorRecord)
    ensures r == ErrorRecord(UnknownError, e.description, e.url, e.line, e.column)
  {
    var baseError := new BaseError(UnknownError);
    baseError.SetDescription(e.description);
    baseError.SetUrl(e.url);
    baseError.SetLine(e.line);
    baseError.SetColumn(e.column);
    r := baseError.Value();
  }

  /** A caller-owned QList<BaseError>. */
  class ErrorList {
    var items: seq<ErrorRecord>

    constructor ()
      ensures items == []
    {
      items := [];
    }
  }

  /** `addDslError`: nothing without a list; otherwise exactly one converted error appended. */
  method AddDslError(newDslError: DslError, errorFileName: string, baseErrorList: ErrorList?)
    modifies baseErrorList
    ensures baseErrorList != null ==> baseErrorList.items == old(baseErrorList.items) + [DslRecord(newDslError, errorFileName)]
  {
    if baseErrorList == null {
      return;
    }
    var error := DslErrorToBase(newDslError, errorFileName);
    baseErrorList.items := baseErrorList.items + [error];
  }
}
