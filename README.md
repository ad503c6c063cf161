# Exceptron client model

A Dafny model of the exception-report client `ExceptronClient` of Radarr
(`src/NzbDrone.Common/Exceptron/ExceptronClient.cs`). The client checks its
configuration once at construction and fixes the host's .NET framework tier.
For each submitted exception it then:

- validates the call;
- builds an `ExceptionReport` field by field (API key, client identity,
  exception type and message, stack frames, caller context, severity,
  framework tier and type, culture, OS and host name);
- PUTs the report to the collector;
- writes the collector's RefId into the exception's `Data["et"]`.

Every failure after construction is caught and returned as
`ExceptionResponse { Exception = e }`.

Files:

- `wrappers.dfy`: `Option` (a C# null) and `Result` (a value or a thrown exception).
- `dotnet.dfy`: the exception kinds involved, and the .NET string operations the client uses: `IsNullOrEmpty`, `IndexOf(char)`, `Substring(int)` and `Trim()` with `Char.IsWhiteSpace`.
- `message.dfy`: the captured stack frames, `ExceptionData`, the wire `Report`, the `ExceptionReport` object, the exception object with its mutable `Data` dictionary, and `ExceptionResponse`.
- `client.dfy`: the configuration, the pure parts (argument checks, framework tier, signature reshaping, frame list, environment, validation, the outcome of a submission), the transport `RestClient` and the `ExceptronClient` class. The class's methods are the constructor (`Create`), `SubmitException` (both overloads), `SetEnvironmentInfo` and `ConvertToFrames`.
- `properties.dfy`: lemmas stating what the client promises.

Runtime queries are inputs to the model:

- `ClrRuntime` at construction: the CLR major version, and whether the System.Core 3.5 and the Parallel assemblies load.
- `HostEnvironment` per submission: the client assembly version, the culture name, and the OS version and machine name, each either a value or a thrown failure.
- The collector's answer to the PUT: a `PutReply`, which is a deserialized body (possibly null) or a failure.

`RestClient` records every PUT it is handed (host and report) in `requests`.
This record is how the model observes whether the transport was called and with what.

`SubmitExceptionData` (the `SubmitException(ExceptionData)` overload) is
proved against the function `SubmitOutcome`, and so is the convenience
overload. The outcome gives the request sent (if any), the value written
to `Data["et"]` (if any) and the response. `ConvertToFrames` is a loop
proved against the recursive function `FrameList`.

The model follows the code as written:

- `ValidateState` runs inside the `try`, so a null `exceptionData` or a null `Exception` is returned in the response and never thrown.
- The rethrow under `ThrowExceptions` in the outer handler is commented out, so `SubmitException` never throws.
- The framework tier is computed once, in the constructor, not lazily.

## Model

| member | source | states |
|---|---|---|
| `DotNet.IsNullOrEmpty` | src/NzbDrone.Common/Exceptron/ExceptronClient.cs:62 | String.IsNullOrEmpty: true for null and for "", false for every non-empty string |
| `DotNet.IsWhiteSpace` | src/NzbDrone.Common/Exceptron/ExceptronClient.cs:233 | Char.IsWhiteSpace, the set Trim removes: it includes space, tab, line feed and carriage return, and excludes ASCII letters, digits and the punctuation of a method signature |
| `DotNet.IndexOf` | src/NzbDrone.Common/Exceptron/ExceptronClient.cs:233 | the result is -1 exactly when the character does not occur; otherwise it is a position holding it with no earlier occurrence |
| `DotNet.Substring` | src/NzbDrone.Common/Exceptron/ExceptronClient.cs:233 | succeeds exactly when 0 <= start <= length, giving the suffix from start; otherwise ArgumentOutOfRangeException("startIndex") |
| `DotNet.Trim` | src/NzbDrone.Common/Exceptron/ExceptronClient.cs:233 | the result has no white space at either end, is the part of the input after its leading white space, and only white space follows it |
| `DotNet.TrimUnpads` | src/NzbDrone.Common/Exceptron/ExceptronClient.cs:233 | trimming white space + t + white space gives back t for any trimmed t |
| `DotNet.TrimIgnoresLeadingWhiteSpace` | src/NzbDrone.Common/Exceptron/ExceptronClient.cs:233 | white space put in front of a string does not change its trimmed form |
| `DotNet.TrimIdempotent` | src/NzbDrone.Common/Exceptron/ExceptronClient.cs:233 | trimming twice equals trimming once |
| `Exceptron.CheckArguments` | src/NzbDrone.Common/Exceptron/ExceptronClient.cs:56-63 | construction fails exactly when the configuration or version is null or the API key is null or empty; the checks run in that order, giving ArgumentNullException("exceptronConfiguration"), ArgumentNullException("applicationVersion") and ArgumentException("An API Key was not provided") |
| `Exceptron.ExceptronClient.Create` | src/NzbDrone.Common/Exceptron/ExceptronClient.cs:54-74 | fails with the argument error exactly when the checks fail; otherwise the new client stores the configuration and version, the tier computed from the runtime, FrameworkType ".Net" and a transport that has sent nothing |
| `Exceptron.ExceptronClient.constructor` | src/NzbDrone.Common/Exceptron/ExceptronClient.cs:65-73 | stores the configuration, the version string, the computed tier and ".Net" |
| `Exceptron.GetMaximumFrameworkVersion` | src/NzbDrone.Common/Exceptron/ExceptronClient.cs:248-283 | the tier is one of "2.0", "3.5", "4.0", "4.5", "Unknown", and "Unknown" exactly when the CLR major version is neither 2 nor 4 |
| `ExceptronProperties.FrameworkVersionIsNewestPassingProbe` | src/NzbDrone.Common/Exceptron/ExceptronClient.cs:248-283 | the tier equals the tier of the first passing check in the list 4.5 (CLR 4 and Parallel loads), 4.0 (CLR 4), 3.5 (CLR 2 and System.Core loads), 2.0 (CLR 2), or "Unknown" when none passes |
| `Exceptron.ShortSignature` | src/NzbDrone.Common/Exceptron/ExceptronClient.cs:230-233 | fails with ArgumentOutOfRangeException exactly when the display string has no space; otherwise the result is trimmed and shorter than the display string (its value is given by SignatureDropsReturnType) |
| `ExceptronProperties.SignatureDropsReturnType` | src/NzbDrone.Common/Exceptron/ExceptronClient.cs:233 | for "<return type> <rest>" with a space-free return type, the frame's method is exactly the rest, trimmed, for any rest |
| `Exceptron.FrameList` | src/NzbDrone.Common/Exceptron/ExceptronClient.cs:215-242 | the only failure of frame conversion is ArgumentOutOfRangeException("startIndex") |
| `Exceptron.FrameListSucceeds` | src/NzbDrone.Common/Exceptron/ExceptronClient.cs:217-233 | the frame list exists exactly when every captured frame's display string contains a space |
| `Exceptron.FrameAt` | src/NzbDrone.Common/Exceptron/ExceptronClient.cs:217-241 | the list has one frame per captured frame; frame k has i = k, the captured file and line, the short signature, and c the declaring type's full name, absent when the method has no declaring type |
| `Exceptron.FrameListDescribes` | src/NzbDrone.Common/Exceptron/ExceptronClient.cs:217-241 | the per-frame statement of FrameAt for every position at once |
| `Exceptron.FrameListExtends` | src/NzbDrone.Common/Exceptron/ExceptronClient.cs:225-241 | one more captured frame appends exactly its reported frame to the list |
| `Exceptron.FramesOf` | src/NzbDrone.Common/Exceptron/ExceptronClient.cs:205-246 | the frames reported for a non-null exception: none for a missing stack; otherwise it fails, with ArgumentOutOfRangeException("startIndex"), exactly when some display string has no space, and else gives one frame per captured frame |
| `Exceptron.ExceptronClient.ConvertToFrames` | src/NzbDrone.Common/Exceptron/ExceptronClient.cs:205-246 | no list for a null exception or a missing stack; otherwise the loop's result is the frame list of the stack, or its failure |
| `ExceptronProperties.ConvertedFramesFollowStack` | src/NzbDrone.Common/Exceptron/ExceptronClient.cs:215-245 | when every display string has a space, the frames are one per captured frame in input order, indexed 0..n-1, with file and line copied |
| `Exceptron.CultureName` | src/NzbDrone.Common/Exceptron/ExceptronClient.cs:176-179 | the culture sent is never empty: it is the thread culture's name whenever that is non-empty, and "en" otherwise |
| `Exceptron.EnvironmentApplied` | src/NzbDrone.Common/Exceptron/ExceptronClient.cs:174-201 | the report after environment collection: only cul, os and hn change; cul is the culture name; os is the OS version when readable and is otherwise unchanged; hn is the machine name when configured, readable and not after a rethrown OS failure, and otherwise unchanged |
| `Exceptron.EnvironmentError` | src/NzbDrone.Common/Exceptron/ExceptronClient.cs:181-200 | environment collection fails only with ThrowExceptions set, and then exactly when the OS read fails or the host name is wanted and its read fails; the error is the OS failure when there is one, else the machine-name failure |
| `Exceptron.ExceptronClient.SetEnvironmentInfo` | src/NzbDrone.Common/Exceptron/ExceptronClient.cs:174-201 | the report afterwards is the environment applied to the report before, and the failure it returns is the environment error |
| `ExceptronProperties.EnvironmentFailuresSwallowed` | src/NzbDrone.Common/Exceptron/ExceptronClient.cs:181-200 | without ThrowExceptions an OS or machine-name failure is swallowed and leaves that field unset |
| `Exceptron.ValidateState` | src/NzbDrone.Common/Exceptron/ExceptronClient.cs:162-172 | validation passes exactly when the API key is non-empty and the data and its exception are non-null; each failure is the source's exception, in the source's order |
| `ExceptronProperties.ConstructedClientValidatesOnlyData` | src/NzbDrone.Common/Exceptron/ExceptronClient.cs:162-172 | for a constructed client, validation fails exactly when the data or its exception is null, with the null-exception ArgumentException in the latter case |
| `Exceptron.ReportFor` | src/NzbDrone.Common/Exceptron/ExceptronClient.cs:123-139 | the report as filled before environment collection: cul, os and hn unset, and every other field set from the configuration, client identity, application version, exception, caller context, tier and framework type |
| `Exceptron.SubmitOutcome` | src/NzbDrone.Common/Exceptron/ExceptronClient.cs:117-160 | the effect of one submission: a request goes only to the configured host and only after validation passes; Data["et"] is written only after a request; with no request the response carries an error and no RefId |
| `Exceptron.RestClient.Put` | src/NzbDrone.Common/Exceptron/ExceptronClient.cs:143 | the transport records the host and the report it was handed and answers with the collector's reply |
| `Exceptron.ExceptronClient.SubmitExceptionData` | src/NzbDrone.Common/Exceptron/ExceptronClient.cs:117-160 | returns the submission outcome's response, adds to the transport exactly the request of the outcome, and changes the exception's Data only by the outcome's "et" write |
| `Exceptron.ExceptronClient.SubmitException` | src/NzbDrone.Common/Exceptron/ExceptronClient.cs:99-111 | behaves as the full overload on the ExceptionData built from its arguments |
| `ExceptronProperties.TransportCalledOnlyAfterAllChecks` | src/NzbDrone.Common/Exceptron/ExceptronClient.cs:119-143 | the transport is called exactly when validation, frame conversion and the environment all succeed |
| `ExceptronProperties.InvalidSubmissionIsReturned` | src/NzbDrone.Common/Exceptron/ExceptronClient.cs:119-158 | a validation failure is returned as the response's exception, with no transport call and no Data write |
| `ExceptronProperties.RefIdStampedOnlyOnSuccess` | src/NzbDrone.Common/Exceptron/ExceptronClient.cs:143-158 | Data["et"] is written exactly when the collector returned a response; it then holds that response's RefId and that response is returned; otherwise the response carries an error and no RefId |
| `ExceptronProperties.ConversionAndEnvironmentFailuresAreReturned` | src/NzbDrone.Common/Exceptron/ExceptronClient.cs:131-158 | after validation passes, a failed frame conversion is returned as its ArgumentOutOfRangeException, and a rethrown environment failure as exactly that error, each with no request and no Data write |
| `ExceptronProperties.TransportFailureIsReturned` | src/NzbDrone.Common/Exceptron/ExceptronClient.cs:143-158 | a transport failure is returned as the response's exception and Data is not written |
| `ExceptronProperties.ReportCarriesSubmittedValues` | src/NzbDrone.Common/Exceptron/ExceptronClient.cs:123-139 | the report sent carries the configured API key and host, client name and version, application version, exception type and message, the stack's frames, the caller's component, user id, message and severity, the fixed tier and the framework type |
| `ExceptronProperties.ReportCarriesEnvironment` | src/NzbDrone.Common/Exceptron/ExceptronClient.cs:174-200 | in the report sent, the culture is the non-empty culture name, the OS field is present exactly when readable, and the host name is present exactly when configured and readable |

## Left out

- The constructor `ExceptronClient(Version)` (lines 42-46): it reads the configuration from the application's config file, which is file I/O.
- `ClientVersion` (line 18) is read from assembly metadata by reflection. It is the input `HostEnvironment.clientVersion`.
- `Environment.Version` and the two `Assembly.Load` probes (lines 250-272) are the input `ClrRuntime`. `Thread.CurrentThread.CurrentCulture`, `Environment.OSVersion` and `Environment.MachineName` are inputs in `HostEnvironment`. `new StackTrace(exception, true).GetFrames()` is the exception's `stack` field.
- `RestClient.Put` (line 143): the network call and JSON (de)serialization are not modelled. The transport records the report and returns the reply given as input.
- `Trace.WriteLine` (line 151) is logging only.
- `Version.ToString()` (line 69): the application version is taken as its string form.
- `ExceptionSeverity`: its declaration is not part of this model. A severity is carried as its underlying integer, which is what `(int)Severity` sends. The default argument values of the convenience `SubmitException` are not modelled.
- `Exception.Data` holds arbitrary objects. The model holds only (possibly null) strings, enough for the "et" entry.
- A frame whose `GetMethod()` is null would throw a NullReferenceException at line 221. The model assumes every captured frame has a method. It takes the declaring type as its full name, or absent.
- `ExceptionReport`'s public fields are kept as one `Report` record inside the object. Writing a field is a record update, so aliasing between individual fields does not arise.
- The configuration is taken as a value fixed at construction. The source keeps a reference to the caller's `ExceptronConfiguration` and re-reads `ApiKey`, `Host`, `ThrowExceptions` and `IncludeMachineName` on every call (lines 125, 143, 164, 187, 190, 198). Later changes to that object are not modelled. So a constructed client cannot reach the "ApiKey has not been provided" error of line 165, which in the source is reached when the key is cleared after construction. `ValidateState` itself still models that error for any configuration.
- The public `FrameworkType` setter: the field is mutable, but no setter operation is modelled. Each submission uses its current value.
- Concurrency: each method runs to completion, and concurrent submissions are not modelled.
- src/NzbDrone.Host/MainAppContainerBuilder.cs: dependency-injection wiring is not part of this model.
- The migrations 123_create_netimport_table.cs and 125_fix_imdb_unique.cs are declarative schema changes and SQL, and are not part of this model.
- NzbDrone.Core.Test/ProviderTests/RootDirProviderTest.cs tests a provider whose source is not part of this model.
