/**
 * What the Exceptron client promises, stated over the functions that
 * specify its methods: the framework tier, the reshaped method signatures,
 * the frames, validation, and the outcome of a submission.
 */
module ExceptronProperties {
  import opened Wrappers
  import opened DotNet
  import opened ExceptronMessage
  import opened Exceptron

  /** The framework tier is the tier of the newest capability check the runtime passes, "Unknown" when it passes none. */
  lemma FrameworkVersionIsNewestPassingProbe(clr: ClrRuntime)
    ensures GetMaximumFrameworkVersion(clr) == HighestPassingTier(CapabilityProbes(clr))
  {
    var probes := CapabilityProbes(clr);
    var k := FirstPassing(probes);
    if clr.major == 4 {
      assert probes[1].passes;
      assert k == (if clr.parallelLoads then 0 else 1);
    } else if clr.major == 2 {
      assert !probes[0].passes && !probes[1].passes && probes[3].passes;
      if clr.systemCore35Loads {
        assert probes[2].passes;
        assert k == 2;
      } else {
        assert !probes[2].passes;
        assert k == 3;
      }
    } else {
      assert forall j :: 0 <= j < |probes| ==> !probes[j].passes;
      assert k == |probes|;
    }
  }

  /**
   * A display string "<return type> <rest>" reports the rest, trimmed,
   * whatever white space stands around it.
   */
  lemma SignatureDropsReturnType(returnType: string, rest: string)
    requires !HasSpace(returnType)
    ensures ShortSignature(returnType + " " + rest) == Ok(Trim(rest))
  {
    var display := returnType + " " + rest;
    var i := IndexOf(display, ' ');
    assert display[|returnType|] == ' ';
    assert forall j :: 0 <= j < |returnType| ==> display[j] == returnType[j];
    assert i <= |returnType|;
    assert i == |returnType|;
    assert display[i..] == " " + rest;
    TrimIgnoresLeadingWhiteSpace(" ", rest);
  }

  /** A captured stack becomes a list with one frame per captured frame, in order, each at its own position. */
  lemma ConvertedFramesFollowStack(raw: seq<RawFrame>)
    requires AllHaveSpace(raw)
    ensures FramesOf(Some(raw)).Ok? && FramesOf(Some(raw)).value.Some?
    ensures var frames := FramesOf(Some(raw)).value.value;
      && |frames| == |raw|
      && forall k :: 0 <= k < |raw| ==> frames[k].i == k && frames[k].fn == raw[k].fileName && frames[k].ln == raw[k].line
  {
    FrameListSucceeds(raw);
    FrameListDescribes(raw);
  }

  /** For a client that was constructed, the API-key check always passes: only the exception data can fail validation. */
  lemma ConstructedClientValidatesOnlyData(config: Configuration, applicationVersion: string, data: Option<ExceptionData>)
    requires CheckArguments(Some(config), Some(applicationVersion)).None?
    ensures ValidateState(config, data).None? <==> data.Some? && data.value.exception != null
    ensures data.Some? && data.value.exception == null ==>
      ValidateState(config, data) == Some(Argument("ExceptionData.Exception Cannot be null.", Some("exceptionData")))
  {
  }

  /** The transport is called exactly when validation, frame conversion and environment collection all succeed. */
  lemma TransportCalledOnlyAfterAllChecks(
    config: Configuration, applicationVersion: string, tier: string, frameworkType: string,
    data: Option<ExceptionData>, env: HostEnvironment, reply: PutReply)
    ensures var o := SubmitOutcome(config, applicationVersion, tier, frameworkType, data, env, reply);
      o.request.Some? <==>
        && ValidateState(config, data).None?
        && FramesOf(data.value.exception.stack).Ok?
        && EnvironmentError(config, env).None?
  {
  }

  /** An invalid submission returns the validation error, never reaches the transport and leaves Data alone. */
  lemma InvalidSubmissionIsReturned(
    config: Configuration, applicationVersion: string, tier: string, frameworkType: string,
    data: Option<ExceptionData>, env: HostEnvironment, reply: PutReply)
    requires ValidateState(config, data).Some?
    ensures var o := SubmitOutcome(config, applicationVersion, tier, frameworkType, data, env, reply);
      && o.request.None? && o.stamp.None?
      && o.response == ExceptionResponse(None, ValidateState(config, data))
  {
  }

  /**
   * Data["et"] is written exactly when the collector answered with a
   * response, and then it holds that response's RefId and that response is
   * what the client returns. Every other outcome is a response carrying an
   * error and no RefId.
   */
  lemma RefIdStampedOnlyOnSuccess(
    config: Configuration, applicationVersion: string, tier: string, frameworkType: string,
    data: Option<ExceptionData>, env: HostEnvironment, reply: PutReply)
    ensures var o := SubmitOutcome(config, applicationVersion, tier, frameworkType, data, env, reply);
      && (o.stamp.Some? <==> o.request.Some? && reply.Replied? && reply.body.Some?)
      && (o.stamp.Some? ==> o.response == reply.body.value && o.stamp == Some(reply.body.value.refId))
      && (o.stamp.None? ==> o.response.refId.None? && o.response.exception.Some?)
  {
  }

  /**
   * Once validation passes, a failed frame conversion and then a rethrown
   * environment failure are returned as exactly that error, with no request
   * and no Data write.
   */
  lemma ConversionAndEnvironmentFailuresAreReturned(
    config: Configuration, applicationVersion: string, tier: string, frameworkType: string,
    data: Option<ExceptionData>, env: HostEnvironment, reply: PutReply)
    requires ValidateState(config, data).None?
    ensures var o := SubmitOutcome(config, applicationVersion, tier, frameworkType, data, env, reply);
      && (FramesOf(data.value.exception.stack).Err? ==>
            o == Submission(None, None, Failed(ArgumentOutOfRange("startIndex"))))
      && (FramesOf(data.value.exception.stack).Ok? && EnvironmentError(config, env).Some? ==>
            o == Submission(None, None, Failed(EnvironmentError(config, env).value)))
  {
  }

  /** A transport failure is returned inside the response, whatever ThrowExceptions says. */
  lemma TransportFailureIsReturned(
    config: Configuration, applicationVersion: string, tier: string, frameworkType: string,
    data: Option<ExceptionData>, env: HostEnvironment, e: Error)
    ensures var o := SubmitOutcome(config, applicationVersion, tier, frameworkType, data, env, PutFailed(e));
      o.request.Some? ==> o.response == ExceptionResponse(None, Some(e)) && o.stamp.None?
  {
  }

  /**
   * The report handed to the transport carries the configured key and host,
   * the caller's component, user id, message and severity, the exception's
   * type and message, the fixed tier and framework type, and the frames of
   * the exception's stack.
   */
  lemma ReportCarriesSubmittedValues(
    config: Configuration, applicationVersion: string, tier: string, frameworkType: string,
    data: Option<ExceptionData>, env: HostEnvironment, reply: PutReply)
    ensures var o := SubmitOutcome(config, applicationVersion, tier, frameworkType, data, env, reply);
      o.request.Some? ==>
        var r := o.request.value.report;
        && o.request.value.host == config.host
        && r.ap == config.apiKey && r.dn == Some(ClientName) && r.dv == Some(env.clientVersion)
        && r.aver == Some(applicationVersion)
        && r.ext == Some(data.value.exception.typeName) && r.exm == Some(data.value.exception.message)
        && Ok(r.stk) == FramesOf(data.value.exception.stack)
        && r.cmp == data.value.component && r.uid == data.value.userId && r.msg == data.value.message
        && r.sv == data.value.severity
        && r.fv == Some(tier) && r.ft == Some(frameworkType)
  {
  }

  /**
   * The environment part of a sent report: the culture is never empty, the
   * OS version is present exactly when it could be read, and the host name
   * is present exactly when configured and readable.
   */
  lemma ReportCarriesEnvironment(
    config: Configuration, applicationVersion: string, tier: string, frameworkType: string,
    data: Option<ExceptionData>, env: HostEnvironment, reply: PutReply)
    ensures var o := SubmitOutcome(config, applicationVersion, tier, frameworkType, data, env, reply);
      o.request.Some? ==>
        var r := o.request.value.report;
        && r.cul == Some(CultureName(env.culture)) && r.cul != Some("")
        && (r.os.Some? <==> env.osVersion.Ok?)
        && (env.osVersion.Ok? ==> r.os == Some(env.osVersion.value))
        && (r.hn.Some? <==> config.includeMachineName && env.machineName.Ok?)
        && (r.hn.Some? ==> r.hn == Some(env.machineName.value))
  {
  }

  /** Without ThrowExceptions an environment failure never stops a submission. */
  lemma EnvironmentFailuresSwallowed(config: Configuration, env: HostEnvironment)
    requires !config.throwExceptions
    ensures EnvironmentError(config, env).None?
    ensures var r := EnvironmentApplied(EmptyReport, config, env);
      && (env.osVersion.Err? ==> r.os.None?)
      && (config.includeMachineName && env.machineName.Err? ==> r.hn.None?)
  {
  }
}
