/**
 * The values the Exceptron client exchanges with its caller and with the
 * collector: the stack frames the runtime captured, the caller's exception
 * data, the report sent on the wire and the response that comes back.
 */
module ExceptronMessage {
  import opened Wrappers
  import opened DotNet

  /**
   * One stack frame as the runtime reports it: the method's display string
   * (MethodBase.ToString(), return type first), the source file and line,
   * and the full name of the declaring type when the method has one.
   */
  datatype RawFrame = RawFrame(
    methodText: string,
    fileName: Option<string>,
    line: int,
    declaringType: Option<string>)

  /** A reported stack frame: position i, file fn, line ln, method m and class c. */
  datatype Frame = Frame(i: int, fn: Option<string>, ln: int, m: string, c: Option<string>)

  /**
   * An exception raised in the host application. Its type name, message and
   * captured stack do not change; its Data dictionary is updated in place.
   * Data values are modelled as (possibly null) strings.
   */
  class CapturedException {
    const typeName: string
    const message: string
    /** the frames new StackTrace(exception, true) yields, or None when it yields none */
    const stack: Option<seq<RawFrame>>
    var data: map<string, Option<string>>

    constructor (typeName: string, message: string, stack: Option<seq<RawFrame>>, data: map<string, Option<string>>)
      ensures this.typeName == typeName && this.message == message
      ensures this.stack == stack && this.data == data
    {
      this.typeName := typeName;
      this.message := message;
      this.stack := stack;
      this.data := data;
    }
  }

  /**
   * What the caller submits. The severity is carried as the integer value of
   * its ExceptionSeverity member, which is what the report sends.
   */
  datatype ExceptionData = ExceptionData(
    exception: CapturedException?,
    component: Option<string>,
    severity: int,
    message: Option<string>,
    userId: Option<string>)

  /** The wire payload, one field per key of the collector's format. */
  datatype Report = Report(
    ap: Option<string>,
    dn: Option<string>,
    dv: Option<string>,
    aver: Option<string>,
    ext: Option<string>,
    stk: Option<seq<Frame>>,
    exm: Option<string>,
    cmp: Option<string>,
    uid: Option<string>,
    msg: Option<string>,
    sv: int,
    fv: Option<string>,
    ft: Option<string>,
    cul: Option<string>,
    os: Option<string>,
    hn: Option<string>)

  /** A freshly allocated report: every reference field null, the severity 0. */
  const EmptyReport := Report(None, None, None, None, None, None, None, None, None, None, 0, None, None, None, None, None)

  /**
   * The report object that the client fills field by field before handing
   * it to the transport. Its public fields are kept together as one Report
   * record: writing report.ap is updating the record's ap.
   */
  class ExceptionReport {
    var fields: Report

    constructor ()
      ensures fields == EmptyReport
    {
      fields := EmptyReport;
    }
  }

  /** The collector's answer: the reference id of the stored report, or the error that prevented submission. */
  datatype ExceptionResponse = ExceptionResponse(refId: Option<string>, exception: Option<Error>)

  /** The response SubmitException returns when it catches e. */
  function Failed(e: Error): ExceptionResponse {
    ExceptionResponse(None, Some(e))
  }
}
