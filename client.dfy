/**
 * The Exceptron client: it validates its configuration once, then turns each
 * submitted exception into a report (stack frames, environment, framework
 * tier), sends it to the collector and writes the collector's reference id
 * back into the exception's Data dictionary under "et". No failure after
 * construction escapes: it comes back inside the returned response.
 *
 * The runtime queries the client makes (the CLR version and assembly probes,
 * the thread culture, the OS version, the machine name, the client assembly
 * version) are taken as inputs: ClrRuntime at construction, HostEnvironment
 * per submission. The network transport is RestClient, whose reply is an input.
 */
module Exceptron {
  import opened Wrappers
  import opened DotNet
  import opened ExceptronMessage

  /** ExceptronConfiguration: the settings the client reads. */
  datatype Configuration = Configuration(
    apiKey: Option<string>,
    host: string,
    throwExceptions: bool,
    includeMachineName: bool)

  /**
   * What the CLR answers at construction: Environment.Version.Major, and
   * whether loading System.Core 3.5 and System.Threading.Tasks.Parallel
   * succeeds.
   */
  datatype ClrRuntime = ClrRuntime(major: int, systemCore35Loads: bool, parallelLoads: bool)

  /**
   * What the host answers during one submission: the client assembly's
   * version, the current thread's culture name, and Environment.OSVersion
   * and Environment.MachineName, each of which may throw.
   */
  datatype HostEnvironment = HostEnvironment(
    clientVersion: string,
    culture: Option<string>,
    osVersion: Result<string, Error>,
    machineName: Result<string, Error>)

  const ClientName := "Official .NET"
  const FrameworkTypeDotNet := ".Net"

  // ---------------------------------------------------------------------
  // Construction

  /** The argument checks of the constructor, in the order it makes them. */
  function CheckArguments(config: Option<Configuration>, applicationVersion: Option<string>): (r: Option<Error>)
    ensures r.None? <==> config.Some? && applicationVersion.Some? && !IsNullOrEmpty(config.value.apiKey)
    ensures config.None? ==> r == Some(ArgumentNull("exceptronConfiguration"))
    ensures config.Some? && applicationVersion.None? ==> r == Some(ArgumentNull("applicationVersion"))
    ensures config.Some? && applicationVersion.Some? && IsNullOrEmpty(config.value.apiKey) ==>
      r == Some(Argument("An API Key was not provided", None))
    ensures r.Some? ==> r.value.ArgumentNull? || r.value.Argument?
  {
    if config.None? then Some(ArgumentNull("exceptronConfiguration"))
    else if applicationVersion.None? then Some(ArgumentNull("applicationVersion"))
    else if IsNullOrEmpty(config.value.apiKey) then Some(Argument("An API Key was not provided", None))
    else None
  }

  /**
   * The highest .NET framework version the runtime supports: CLR 2 is 3.5
   * when System.Core 3.5 loads and 2.0 otherwise, CLR 4 is 4.5 when the
   * Parallel assembly loads and 4.0 otherwise, anything else is unknown.
   */
  function GetMaximumFrameworkVersion(clr: ClrRuntime): (r: string)
    ensures r in {"2.0", "3.5", "4.0", "4.5", "Unknown"}
    ensures r == "Unknown" <==> clr.major != 2 && clr.major != 4
  {
    if clr.major == 2 then
      if clr.systemCore35Loads then "3.5" else "2.0"
    else if clr.major == 4 then
      if clr.parallelLoads then "4.5" else "4.0"
    else "Unknown"
  }

  /** A capability check: the tier it stands for and whether the runtime passes it. */
  datatype Probe = Probe(tier: string, passes: bool)

  /** The capability checks ordered from the newest tier to the oldest. */
  function CapabilityProbes(clr: ClrRuntime): seq<Probe> {
    [ Probe("4.5", clr.major == 4 && clr.parallelLoads),
      Probe("4.0", clr.major == 4),
      Probe("3.5", clr.major == 2 && clr.systemCore35Loads),
      Probe("2.0", clr.major == 2) ]
  }

  /** The position of the first probe that passes, or |probes| when none does. */
  function FirstPassing(probes: seq<Probe>): (k: nat)
    ensures k <= |probes|
    ensures forall j :: 0 <= j < k ==> !probes[j].passes
    ensures k < |probes| ==> probes[k].passes
  {
    if probes == [] then 0
    else if probes[0].passes then 0
    else 1 + FirstPassing(probes[1..])
  }

  /** The tier of the first passing probe, or "Unknown". */
  function HighestPassingTier(probes: seq<Probe>): string {
    var k := FirstPassing(probes);
    if k < |probes| then probes[k].tier else "Unknown"
  }

  // ---------------------------------------------------------------------
  // Stack frames

  /**
   * The method part of a display string such as "Void Run(Int32)": the text
   * from the first space on, trimmed. Without a space, IndexOf gives -1 and
   * Substring(-1) throws.
   */
  function ShortSignature(display: string): (r: Result<string, Error>)
    ensures r.Err? <==> !HasSpace(display)
    ensures r.Err? ==> r.error == ArgumentOutOfRange("startIndex")
    ensures r.Ok? ==> IsTrimmed(r.value) && |r.value| < |display|
  {
    match Substring(display, IndexOf(display, ' '))
    case Err(e) => Err(e)
    case Ok(tail) => Ok(Trim(tail))
  }

  /** f is the frame reported for raw at position index. */
  predicate Describes(f: Frame, index: int, raw: RawFrame) {
    && f.i == index
    && f.fn == raw.fileName
    && f.ln == raw.line
    && Ok(f.m) == ShortSignature(raw.methodText)
    && f.c == raw.declaringType
  }

  /** The frames reported for a captured stack, built front to back; the first frame without a space in its display string throws. */
  function FrameList(raw: seq<RawFrame>): (r: Result<seq<Frame>, Error>)
    ensures r.Err? ==> r.error == ArgumentOutOfRange("startIndex")
  {
    if raw == [] then Ok([])
    else
      var n := |raw| - 1;
      match FrameList(raw[..n])
      case Err(e) => Err(e)
      case Ok(frames) =>
        match ShortSignature(raw[n].methodText)
        case Err(e) => Err(e)
        case Ok(m) => Ok(frames + [Frame(n, raw[n].fileName, raw[n].line, m, raw[n].declaringType)])
  }

  /** Every captured frame's display string contains a space. */
  predicate AllHaveSpace(raw: seq<RawFrame>) {
    forall k :: 0 <= k < |raw| ==> HasSpace(raw[k].methodText)
  }

  /** The display string has a space, so that IndexOf(' ') finds one. */
  predicate HasSpace(display: string) {
    ' ' in display
  }

  /** The frame list exists exactly when every display string has a space. */
  lemma {:induction false} FrameListSucceeds(raw: seq<RawFrame>)
    ensures FrameList(raw).Ok? <==> AllHaveSpace(raw)
  {
    if raw != [] {
      var n := |raw| - 1;
      var p := raw[..n];
      assert AllHaveSpace(raw) <==> AllHaveSpace(p) && HasSpace(raw[n].methodText) by {
        assert forall k :: 0 <= k < n ==> p[k] == raw[k];
      }
      FrameListSucceeds(p);
    }
  }

  /** Frame k of the list reports captured frame k: position k, the same file, line and class, and the short signature. */
  lemma {:induction false} FrameAt(raw: seq<RawFrame>, k: nat)
    requires FrameList(raw).Ok? && k < |raw|
    ensures |FrameList(raw).value| == |raw|
    ensures Describes(FrameList(raw).value[k], k, raw[k])
    decreases |raw|
  {
    var n := |raw| - 1;
    var p := raw[..n];
    var m := ShortSignature(raw[n].methodText);
    assert FrameList(p).Ok? && m.Ok?;
    var frames := FrameList(p).value;
    assert FrameList(raw).value == frames + [Frame(n, raw[n].fileName, raw[n].line, m.value, raw[n].declaringType)];
    if k < n {
      FrameAt(p, k);
      assert p[k] == raw[k];
    } else if n > 0 {
      FrameAt(p, 0);
    }
  }

  /** One frame per captured frame, in order, each describing its captured frame. */
  lemma FrameListDescribes(raw: seq<RawFrame>)
    requires FrameList(raw).Ok?
    ensures |FrameList(raw).value| == |raw|
    ensures forall k :: 0 <= k < |raw| ==> Describes(FrameList(raw).value[k], k, raw[k])
  {
    if raw != [] {
      FrameAt(raw, 0);
    }
    forall k | 0 <= k < |raw| ensures Describes(FrameList(raw).value[k], k, raw[k]) {
      FrameAt(raw, k);
    }
  }

  /** Extending the captured prefix by one frame extends the frame list by that frame's report. */
  lemma FrameListExtends(raw: seq<RawFrame>, index: nat, frames: seq<Frame>)
    requires index < |raw| && FrameList(raw[..index]) == Ok(frames)
    requires ShortSignature(raw[index].methodText).Ok?
    ensures FrameList(raw[..index + 1]) == Ok(frames + [Frame(index, raw[index].fileName, raw[index].line,
      ShortSignature(raw[index].methodText).value, raw[index].declaringType)])
  {
    var next := raw[..index + 1];
    assert next[..index] == raw[..index] && next[index] == raw[index];
  }

  /** ConvertToFrames on a non-null exception: no list when the runtime gives no frames. */
  function FramesOf(stack: Option<seq<RawFrame>>): (r: Result<Option<seq<Frame>>, Error>)
    ensures stack.None? ==> r == Ok(None)
    ensures r.Err? <==> stack.Some? && !AllHaveSpace(stack.value)
    ensures r.Err? ==> r.error == ArgumentOutOfRange("startIndex")
    ensures r.Ok? && stack.Some? ==> r.value.Some? && |r.value.value| == |stack.value|
  {
    match stack
    case None => Ok(None)
    case Some(raw) =>
      FrameListSucceeds(raw);
      if FrameList(raw).Ok? then FrameListDescribes(raw); Ok(Some(FrameList(raw).value))
      else Err(FrameList(raw).error)
  }

  // ---------------------------------------------------------------------
  // Environment

  /** The culture sent: the thread culture's name, or "en" when that is null or empty. */
  function CultureName(culture: Option<string>): (r: string)
    ensures r != ""
    ensures !IsNullOrEmpty(culture) ==> r == culture.value
    ensures IsNullOrEmpty(culture) ==> r == "en"
  {
    if IsNullOrEmpty(culture) then "en" else culture.value
  }

  /**
   * The report after SetEnvironmentInfo: culture always, the OS version when
   * it could be read, the host name when configured and readable (and not
   * after an OS failure that was rethrown).
   */
  function EnvironmentApplied(r: Report, config: Configuration, env: HostEnvironment): (a: Report)
    ensures a.(cul := r.cul, os := r.os, hn := r.hn) == r
    ensures a.cul == Some(CultureName(env.culture))
    ensures a.os == (if env.osVersion.Ok? then Some(env.osVersion.value) else r.os)
    ensures !config.includeMachineName || env.machineName.Err? ==> a.hn == r.hn
    ensures env.osVersion.Err? && config.throwExceptions ==> a.hn == r.hn
    ensures config.includeMachineName && env.machineName.Ok? && !(env.osVersion.Err? && config.throwExceptions) ==>
      a.hn == Some(env.machineName.value)
  {
    var withCulture := r.(cul := Some(CultureName(env.culture)));
    var withOs := if env.osVersion.Ok? then withCulture.(os := Some(env.osVersion.value)) else withCulture;
    var osRethrown := env.osVersion.Err? && config.throwExceptions;
    if config.includeMachineName && !osRethrown && env.machineName.Ok? then withOs.(hn := Some(env.machineName.value))
    else withOs
  }

  /** The failure SetEnvironmentInfo rethrows: only with ThrowExceptions set, the OS failure first. */
  function EnvironmentError(config: Configuration, env: HostEnvironment): (r: Option<Error>)
    ensures !config.throwExceptions ==> r.None?
    ensures r.None? <==> !config.throwExceptions || (env.osVersion.Ok? && (!config.includeMachineName || env.machineName.Ok?))
    ensures r.Some? ==> r == Some(if env.osVersion.Err? then env.osVersion.error else env.machineName.error)
  {
    if !config.throwExceptions then None
    else if env.osVersion.Err? then Some(env.osVersion.error)
    else if config.includeMachineName && env.machineName.Err? then Some(env.machineName.error)
    else None
  }

  // ---------------------------------------------------------------------
  // Submission

  /** ValidateState: the API key, then the exception data, then its exception. */
  function ValidateState(config: Configuration, data: Option<ExceptionData>): (r: Option<Error>)
    ensures r.None? <==> !IsNullOrEmpty(config.apiKey) && data.Some? && data.value.exception != null
    ensures IsNullOrEmpty(config.apiKey) ==> r == Some(InvalidOperation("ApiKey has not been provided for this client."))
    ensures !IsNullOrEmpty(config.apiKey) && data.None? ==> r == Some(ArgumentNull("exceptionData"))
    ensures !IsNullOrEmpty(config.apiKey) && data.Some? && data.value.exception == null ==>
      r == Some(Argument("ExceptionData.Exception Cannot be null.", Some("exceptionData")))
  {
    if IsNullOrEmpty(config.apiKey) then Some(InvalidOperation("ApiKey has not been provided for this client."))
    else if data.None? then Some(ArgumentNull("exceptionData"))
    else if data.value.exception == null then Some(Argument("ExceptionData.Exception Cannot be null.", Some("exceptionData")))
    else None
  }

  /** The report as SubmitException fills it before the environment is added. */
  function ReportFor(
    config: Configuration, env: HostEnvironment, applicationVersion: string, maxFrameworkVersion: string,
    frameworkType: string, d: ExceptionData, frames: Option<seq<Frame>>): (r: Report)
    requires d.exception != null
    ensures r.cul.None? && r.os.None? && r.hn.None?
    ensures r.ap == config.apiKey && r.dn == Some(ClientName) && r.dv == Some(env.clientVersion)
    ensures r.aver == Some(applicationVersion) && r.fv == Some(maxFrameworkVersion) && r.ft == Some(frameworkType)
    ensures r.ext == Some(d.exception.typeName) && r.exm == Some(d.exception.message) && r.stk == frames
    ensures r.cmp == d.component && r.uid == d.userId && r.msg == d.message && r.sv == d.severity
  {
    EmptyReport.(
      ap := config.apiKey, dn := Some(ClientName), dv := Some(env.clientVersion), aver := Some(applicationVersion),
      ext := Some(d.exception.typeName), stk := frames, exm := Some(d.exception.message),
      cmp := d.component, uid := d.userId, msg := d.message, sv := d.severity,
      fv := Some(maxFrameworkVersion), ft := Some(frameworkType))
  }

  /** One PUT handed to the transport. */
  datatype Request = Request(host: string, report: Report)

  /** What the collector does with a PUT: a deserialized body (null when it came back empty), or a thrown failure. */
  datatype PutReply = Replied(body: Option<ExceptionResponse>) | PutFailed(error: Error)

  /**
   * The effect of one SubmitException call: the request the transport got
   * (if it was called), the value written to Data["et"] (if any), and the
   * response returned.
   */
  datatype Submission = Submission(request: Option<Request>, stamp: Option<Option<string>>, response: ExceptionResponse)

  /** What SubmitException does, as a function of the client's state and the call's inputs. */
  function SubmitOutcome(
    config: Configuration, applicationVersion: string, maxFrameworkVersion: string, frameworkType: string,
    data: Option<ExceptionData>, env: HostEnvironment, reply: PutReply): (o: Submission)
    ensures o.request.Some? ==> ValidateState(config, data).None? && o.request.value.host == config.host
    ensures o.stamp.Some? ==> o.request.Some?
    ensures o.request.None? ==> o.stamp.None? && o.response.refId.None? && o.response.exception.Some?
  {
    match ValidateState(config, data)
    case Some(e) => Submission(None, None, Failed(e))
    case None =>
      var d := data.value;
      match FramesOf(d.exception.stack)
      case Err(e) => Submission(None, None, Failed(e))
      case Ok(frames) =>
        var built := ReportFor(config, env, applicationVersion, maxFrameworkVersion, frameworkType, d, frames);
        match EnvironmentError(config, env)
        case Some(e) => Submission(None, None, Failed(e))
        case None =>
          var request := Some(Request(config.host, EnvironmentApplied(built, config, env)));
          match reply
          case PutFailed(e) => Submission(request, None, Failed(e))
          case Replied(None) => Submission(request, None, Failed(NullReference))
          case Replied(Some(response)) => Submission(request, Some(response.refId), response)
  }

  /** The requests a submission adds to the transport's log. */
  function Sent(o: Submission): seq<Request> {
    if o.request.Some? then [o.request.value] else []
  }

  /** An exception's Data after a submission. */
  function Stamped(data: map<string, Option<string>>, o: Submission): map<string, Option<string>> {
    if o.stamp.Some? then data["et" := o.stamp.value] else data
  }

  /** The exception object a submission may write to. */
  function Subject(data: Option<ExceptionData>): set<CapturedException> {
    if data.Some? && data.value.exception != null then {data.value.exception} else {}
  }

  /**
   * The transport. The collector's answer is an input (reply); what the
   * model observes is the log of PUTs it was handed.
   */
  class RestClient {
    var requests: seq<Request>

    constructor ()
      ensures requests == []
    {
      requests := [];
    }

    method Put(host: string, report: ExceptionReport, reply: PutReply) returns (r: PutReply)
      modifies this
      ensures requests == old(requests) + [Request(host, report.fields)]
      ensures r == reply
    {
      requests := requests + [Request(host, report.fields)];
      r := reply;
    }
  }

  class ExceptronClient {
    const configuration: Configuration
    const restClient: RestClient
    const applicationVersion: string
    /** the framework tier, fixed at construction */
    const maxFrameworkVersion: string
    var frameworkType: string

    constructor (config: Configuration, applicationVersion: string, clr: ClrRuntime)
      requires CheckArguments(Some(config), Some(applicationVersion)).None?
      ensures configuration == config && this.applicationVersion == applicationVersion
      ensures maxFrameworkVersion == GetMaximumFrameworkVersion(clr)
      ensures frameworkType == FrameworkTypeDotNet
      ensures fresh(restClient) && restClient.requests == []
    {
      configuration := config;
      restClient := new RestClient();
      this.applicationVersion := applicationVersion;
      maxFrameworkVersion := GetMaximumFrameworkVersion(clr);
      frameworkType := FrameworkTypeDotNet;
    }

    /** The public constructor: it throws on a null configuration or version, or an empty API key. */
    static method Create(config: Option<Configuration>, applicationVersion: Option<string>, clr: ClrRuntime)
      returns (r: Result<ExceptronClient, Error>)
      ensures r.Err? <==> CheckArguments(config, applicationVersion).Some?
      ensures r.Err? ==> CheckArguments(config, applicationVersion) == Some(r.error)
      ensures r.Ok? ==> && fresh(r.value) && fresh(r.value.restClient)
                        && config == Some(r.value.configuration)
                        && applicationVersion == Some(r.value.applicationVersion)
                        && r.value.maxFrameworkVersion == GetMaximumFrameworkVersion(clr)
                        && r.value.frameworkType == FrameworkTypeDotNet
                        && r.value.restClient.requests == []
    {
      var err := CheckArguments(config, applicationVersion);
      if err.Some? {
        return Err(err.value);
      }
      var client := new ExceptronClient(config.value, applicationVersion.value, clr);
      return Ok(client);
    }

    /** The convenience overload: it wraps its arguments in an ExceptionData. */
    method SubmitException(
      exception: CapturedException?, component: Option<string>, severity: int,
      message: Option<string>, userId: Option<string>, env: HostEnvironment, reply: PutReply)
      returns (response: ExceptionResponse)
      modifies restClient, if exception == null then {} else {exception}
      ensures var o := SubmitOutcome(configuration, applicationVersion, maxFrameworkVersion, frameworkType,
                                     Some(ExceptionData(exception, component, severity, message, userId)), env, reply);
        && response == o.response
        && restClient.requests == old(restClient.requests) + Sent(o)
        && (exception != null ==> exception.data == Stamped(old(exception.data), o))
    {
      var data := ExceptionData(exception, component, severity, message, userId);
      response := SubmitExceptionData(Some(data), env, reply);
    }

    /**
     * Submits one exception. Every failure (invalid state, frames, rethrown
     * environment failure, transport) is returned as Failed(e); on success the
     * collector's response is returned and its RefId is stored in Data["et"].
     */
    method SubmitExceptionData(data: Option<ExceptionData>, env: HostEnvironment, reply: PutReply)
      returns (response: ExceptionResponse)
      modifies restClient, Subject(data)
      ensures var o := SubmitOutcome(configuration, applicationVersion, maxFrameworkVersion, frameworkType, data, env, reply);
        && response == o.response
        && restClient.requests == old(restClient.requests) + Sent(o)
        && (data.Some? && data.value.exception != null ==>
              data.value.exception.data == Stamped(old(data.value.exception.data), o))
    {
      var invalid := ValidateState(configuration, data);
      if invalid.Some? {
        return Failed(invalid.value);
      }
      var exception := data.value.exception;
      ghost var dataBefore := exception.data;

      var report := new ExceptionReport();
      report.fields := report.fields.(ap := configuration.apiKey);
      report.fields := report.fields.(dn := Some(ClientName));
      report.fields := report.fields.(dv := Some(env.clientVersion));
      report.fields := report.fields.(aver := Some(applicationVersion));

      report.fields := report.fields.(ext := Some(exception.typeName));
      var frames := ConvertToFrames(exception);
      if frames.Err? {
        return Failed(frames.error);
      }
      report.fields := report.fields.(stk := frames.value);
      report.fields := report.fields.(exm := Some(exception.message));

      report.fields := report.fields.(cmp := data.value.component);
      report.fields := report.fields.(uid := data.value.userId);
      report.fields := report.fields.(msg := data.value.message);
      report.fields := report.fields.(sv := data.value.severity);
      report.fields := report.fields.(fv := Some(maxFrameworkVersion));
      report.fields := report.fields.(ft := Some(frameworkType));
      ghost var built := ReportFor(configuration, env, applicationVersion, maxFrameworkVersion, frameworkType, data.value, frames.value);
      assert report.fields == built;

      var envError := SetEnvironmentInfo(report, env);
      if envError.Some? {
        return Failed(envError.value);
      }

      var reply' := restClient.Put(configuration.host, report, reply);
      assert exception.data == dataBefore;
      match reply' {
        case PutFailed(e) =>
          response := Failed(e);
        case Replied(None) =>
          response := Failed(NullReference);
        case Replied(Some(r)) =>
          exception.data := exception.data["et" := r.refId];
          response := r;
      }
    }

    /** Fills culture, OS version and (when configured) host name; returns the failure it rethrows, if any. */
    method SetEnvironmentInfo(report: ExceptionReport, env: HostEnvironment) returns (error: Option<Error>)
      modifies report
      ensures report.fields == EnvironmentApplied(old(report.fields), configuration, env)
      ensures error == EnvironmentError(configuration, env)
    {
      report.fields := report.fields.(cul := env.culture);
      if IsNullOrEmpty(report.fields.cul) {
        report.fields := report.fields.(cul := Some("en"));
      }

      match env.osVersion {
        case Ok(v) =>
          report.fields := report.fields.(os := Some(v));
        case Err(e) =>
          if configuration.throwExceptions {
            return Some(e);
          }
      }

      if configuration.includeMachineName {
        match env.machineName {
          case Ok(v) =>
            report.fields := report.fields.(hn := Some(v));
          case Err(e) =>
            if configuration.throwExceptions {
              return Some(e);
            }
        }
      }
      return None;
    }

    /**
     * The frames of an exception's stack, one per captured frame in order;
     * no list for a null exception or when the runtime gives no frames.
     */
    static method ConvertToFrames(exception: CapturedException?) returns (r: Result<Option<seq<Frame>>, Error>)
      ensures exception == null ==> r == Ok(None)
      ensures exception != null ==> r == FramesOf(exception.stack)
    {
      if exception == null {
        return Ok(None);
      }
      if exception.stack.None? {
        return Ok(None);
      }
      var frames := exception.stack.value;

      var result: seq<Frame> := [];
      var index := 0;
      while index < |frames|
        invariant 0 <= index <= |frames|
        invariant FrameList(frames[..index]) == Ok(result)
      {
        var frame := frames[index];
        var m := ShortSignature(frame.methodText);
        if m.Err? {
          FrameListSucceeds(frames);
          return Err(m.error);
        }
        var current := Frame(index, frame.fileName, frame.line, m.value, None);
        if frame.declaringType.Some? {
          current := current.(c := frame.declaringType);
        }
        FrameListExtends(frames, index, result);
        result := result + [current];
        index := index + 1;
      }
      assert frames[..index] == frames;
      return Ok(Some(result));
    }
  }
}
