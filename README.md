# AWS SDK for C++ — model of selected generated code

A Dafny model of four kinds of generated logic in the AWS SDK for C++, with proofs of what each promises.

- **Enum mapper with overflow table** (MediaLive `H265TimecodeInsertionBehavior`; module `MediaLive`).
  - A name is mapped to an enum value by comparing hash codes.
  - A name the client does not know is kept in the process-wide `EnumParseOverflowContainer`, keyed by its hash, and the hash becomes the enum value.
  - The value-to-name direction reads such names back from the table.
  - The container is a class whose table the lookup method updates in place.
  - The proofs cover the known names, the unknown names with and without a container, and both round trips.
  - The unknown-name round trip is also proved across later lookups.
- **JSON binding with "has been set" flags** (AmplifyUIBuilder `ReactStartCodegenJobData`; module `AmplifyUIBuilder`).
  - `operator=(JsonView)` sets a field and its flag exactly when the key is present.
  - `Jsonize` emits a key exactly when its flag is set.
  - The class updates itself field by field. Pure functions on its state as a value specify it.
  - Both round trips are proved: serialise then deserialise, and deserialise then serialise.
- **Operation pipeline of the Lookout for Vision client** (`LookoutforVisionClient`; module `LookoutforVision`).
  - Each of the 22 operations checks its required fields in a fixed order and fails fast with `MISSING_PARAMETER`.
  - It then resolves the endpoint, which may fail with `ENDPOINT_RESOLUTION_FAILURE`.
  - Finally it appends a fixed sequence of literal and request-valued path segments and picks an HTTP verb.
  - `Invoke` gives the outcome: an error, or the endpoint, path, verb and signer handed to `MakeRequest`.
- **Model classes with optional fields** (modules `SecurityHub`, `Snowball`, `ChimeSdkMessaging`, `SecurityLake`, `AppStream`, `SsoAdmin`).
  - Each header class is a Dafny class with the same fields and flags.
  - A setter's `modifies` clause names only its own field and flag, so the setter is proved to change nothing else.
  - `With*` does what `Set*` does and returns the same object.
  - `Add*` appends to a vector, or emplaces into a map without overwriting an existing key.
  - Small client methods show the promises that span several calls.

`aws_core.dfy` (module `AwsCore`) holds the shared types: `Option`, the 32-bit `int32` and `DateTime`.

## Model

| member | source | states |
|---|---|---|
| MediaLive.EnumParseOverflowContainer.StoreOverflow | aws-cpp-sdk-medialive/source/model/H265TimecodeInsertionBehavior.cpp:51 | the name is recorded under the hash code, replacing any name stored there before; no other code changes |
| MediaLive.EnumParseOverflowContainer.RetrieveOverflow | aws-cpp-sdk-medialive/source/model/H265TimecodeInsertionBehavior.cpp:70 | the name stored under the code, or the empty string when none is stored |
| MediaLive.ValueForName | aws-cpp-sdk-medialive/source/model/H265TimecodeInsertionBehavior.cpp:37-56 | the value returned for a name is DISABLED, PIC_TIMING_SEI, NOT_SET or the name's own hash, nothing else |
| MediaLive.StateAfterLookup | aws-cpp-sdk-medialive/source/model/H265TimecodeInsertionBehavior.cpp:48-53 | a lookup never creates or drops the container, only adds or replaces the entry under the name's hash, and keeps every other entry |
| MediaLive.GetH265TimecodeInsertionBehaviorForName | aws-cpp-sdk-medialive/source/model/H265TimecodeInsertionBehavior.cpp:37-56 | the returned value and the container's new table are those of ValueForName and StateAfterLookup on the old table |
| MediaLive.GetNameForH265TimecodeInsertionBehavior | aws-cpp-sdk-medialive/source/model/H265TimecodeInsertionBehavior.cpp:58-75 | the canonical name for the two enumerators; otherwise the name stored under the value, or "" when there is no container or no entry |
| MediaLive.KnownHashesNeverStore | aws-cpp-sdk-medialive/source/model/H265TimecodeInsertionBehavior.cpp:33-47 | any name hashing like "DISABLED" maps to DISABLED, any other hashing like "PIC_TIMING_SEI" to PIC_TIMING_SEI, and neither writes to the table |
| MediaLive.UnknownNameIsStored | aws-cpp-sdk-medialive/source/model/H265TimecodeInsertionBehavior.cpp:48-53 | with a container, an unrecognised name is stored under its hash and the hash is returned as the value |
| MediaLive.UnknownNameWithoutContainer | aws-cpp-sdk-medialive/source/model/H265TimecodeInsertionBehavior.cpp:48-55 | without a container, an unrecognised name yields NOT_SET and nothing is stored |
| MediaLive.RoundTripKnownNames | aws-cpp-sdk-medialive/source/model/H265TimecodeInsertionBehavior.cpp:37-66 | name(value("DISABLED")) is "DISABLED"; the same for "PIC_TIMING_SEI" unless its hash collides with that of "DISABLED" |
| MediaLive.CollidingNameComesBackCanonical | aws-cpp-sdk-medialive/source/model/H265TimecodeInsertionBehavior.cpp:40-43 | a different name whose hash equals that of "DISABLED" comes back as "DISABLED", not as itself |
| MediaLive.RoundTripUnknownName | aws-cpp-sdk-medialive/source/model/H265TimecodeInsertionBehavior.cpp:48-53 | with a container, an unrecognised name whose hash is not a known enumerator value comes back from the table unchanged |
| MediaLive.NoContainerLosesUnknownName | aws-cpp-sdk-medialive/source/model/H265TimecodeInsertionBehavior.cpp:66-73 | without a container an unrecognised name comes back as the empty string |
| MediaLive.StoredNameSurvives | aws-cpp-sdk-medialive/source/model/H265TimecodeInsertionBehavior.cpp:51 | a stored name stays in the table through any later lookups that store no other name under the same hash |
| MediaLive.RoundTripAfterLaterLookups | aws-cpp-sdk-medialive/source/model/H265TimecodeInsertionBehavior.cpp:48-53 | the unknown-name round trip still holds after further lookups, as long as no other name with the same hash was looked up since |
| MediaLive.ContainerPresenceIsKept | aws-cpp-sdk-medialive/source/model/H265TimecodeInsertionBehavior.cpp:48-55 | after any sequence of lookups a container exists exactly when one existed before: lookups never create or drop it |
| AmplifyUIBuilder.DefaultData | generated/src/aws-cpp-sdk-amplifyuibuilder/source/model/ReactStartCodegenJobData.cpp:21-33 | all three enums NOT_SET, both booleans false, all five flags false |
| AmplifyUIBuilder.FromJson | generated/src/aws-cpp-sdk-amplifyuibuilder/source/model/ReactStartCodegenJobData.cpp:35-48 | after the JSON constructor each flag is set exactly when its key is present, and a field whose key is absent keeps its default |
| AmplifyUIBuilder.Payload | generated/src/aws-cpp-sdk-amplifyuibuilder/source/model/ReactStartCodegenJobData.cpp:90-122 | a key is emitted exactly when its flag is set and no other key is emitted; enums are written as their mapper's names, booleans as JSON booleans |
| AmplifyUIBuilder.Assigned | generated/src/aws-cpp-sdk-amplifyuibuilder/source/model/ReactStartCodegenJobData.cpp:50-88 | operator= on the object's state never clears a flag that was set |
| AmplifyUIBuilder.AssignSetsPresentKeys | generated/src/aws-cpp-sdk-amplifyuibuilder/source/model/ReactStartCodegenJobData.cpp:52-85 | a present key sets its flag and its field to the value read (through the enum mapper for enums) |
| AmplifyUIBuilder.AssignKeepsAbsentKeys | generated/src/aws-cpp-sdk-amplifyuibuilder/source/model/ReactStartCodegenJobData.cpp:50-88 | an absent key leaves its field and its flag unchanged, so no flag is ever cleared |
| AmplifyUIBuilder.DefaultSerializesEmpty | generated/src/aws-cpp-sdk-amplifyuibuilder/source/model/ReactStartCodegenJobData.cpp:21-33 | a default object serialises to the empty JSON object |
| AmplifyUIBuilder.RoundTrip | generated/src/aws-cpp-sdk-amplifyuibuilder/source/model/ReactStartCodegenJobData.cpp:50-122 | deserialising what Jsonize produced gives back the flags, every set value (given that the enum mappers give back their values) and defaults elsewhere |
| AmplifyUIBuilder.ReverseRoundTrip | generated/src/aws-cpp-sdk-amplifyuibuilder/source/model/ReactStartCodegenJobData.cpp:50-122 | a JSON object with only these keys, each of the right kind, is reproduced by deserialise-then-serialise when the mappers give back its names |
| AmplifyUIBuilder.AssignIdempotent | generated/src/aws-cpp-sdk-amplifyuibuilder/source/model/ReactStartCodegenJobData.cpp:50-88 | assigning the same JSON object twice has the effect of assigning it once |
| AmplifyUIBuilder.AssignIgnoresOtherKeys | generated/src/aws-cpp-sdk-amplifyuibuilder/source/model/ReactStartCodegenJobData.cpp:50-88 | a JSON object with none of the five keys changes nothing |
| AmplifyUIBuilder.ReactStartCodegenJobData.constructor | generated/src/aws-cpp-sdk-amplifyuibuilder/source/model/ReactStartCodegenJobData.cpp:21-33 | the new object's state is DefaultData |
| AmplifyUIBuilder.ReactStartCodegenJobData.FromJsonView | generated/src/aws-cpp-sdk-amplifyuibuilder/source/model/ReactStartCodegenJobData.cpp:35-48 | the new object's state is FromJson of the JSON object |
| AmplifyUIBuilder.ReactStartCodegenJobData.Assign | generated/src/aws-cpp-sdk-amplifyuibuilder/source/model/ReactStartCodegenJobData.cpp:50-88 | the object's new state is the old one updated by Assigned, key by key |
| AmplifyUIBuilder.ReactStartCodegenJobData.Jsonize | generated/src/aws-cpp-sdk-amplifyuibuilder/source/model/ReactStartCodegenJobData.cpp:90-122 | the payload built call by call is Payload of the object's state |
| LookoutforVision.RequiredFields | generated/src/aws-cpp-sdk-lookoutvision/source/LookoutforVisionClient.cpp:175-598 | the guards of each operation in order: at most two, no repeats, ProjectName or ResourceArn checked first wherever required, TagKeys only for UntagResource and after ResourceArn (e.g. :179-183, :223-232, :559-568) |
| LookoutforVision.Verb | generated/src/aws-cpp-sdk-lookoutvision/source/LookoutforVisionClient.cpp:189 | the HttpMethod each operation passes to MakeRequest (e.g. :189, :573, :597) equals the verb its action calls for under VerbForAction |
| LookoutforVision.MissingParameter | generated/src/aws-cpp-sdk-lookoutvision/source/LookoutforVisionClient.cpp:182 | the AWSError built for a missing field: MISSING_PARAMETER, exception name "MISSING_PARAMETER", message "Missing required field [<Field>]", not retryable |
| LookoutforVision.PathTemplate | generated/src/aws-cpp-sdk-lookoutvision/source/LookoutforVisionClient.cpp:175-598 | each operation's path pieces in order; TagKeys, the one list-valued field, never appears in a path |
| LookoutforVision.FirstMissing | generated/src/aws-cpp-sdk-lookoutvision/source/LookoutforVisionClient.cpp:179-183 | no field is reported exactly when every required field is set; a reported field is unset and every field checked before it is set |
| LookoutforVision.Instantiate | generated/src/aws-cpp-sdk-lookoutvision/source/LookoutforVisionClient.cpp:187-188 | literals are appended as AddPathSegments, request values only ever as a single AddPathSegment, in template order |
| LookoutforVision.Invoke | generated/src/aws-cpp-sdk-lookoutvision/source/LookoutforVisionClient.cpp:175-190 | a request is dispatched only with every required field set, on the resolved endpoint, with the operation's verb and SIGV4_SIGNER; the operation's own error is a non-retryable MISSING_PARAMETER; a resolution failure carries the resolver's message |
| LookoutforVision.PathParamsAreRequired | generated/src/aws-cpp-sdk-lookoutvision/source/LookoutforVisionClient.cpp:175-598 | every request value used in a path is one of the operation's required fields |
| LookoutforVision.MissingFieldIsReported | generated/src/aws-cpp-sdk-lookoutvision/source/LookoutforVisionClient.cpp:179-183 | MISSING_PARAMETER is returned exactly when some required field is unset, and it names the first unset one in the operation's order |
| LookoutforVision.MissingFieldPrecedesEndpointResolution | generated/src/aws-cpp-sdk-lookoutvision/source/LookoutforVisionClient.cpp:179-189 | with a required field missing the outcome does not depend on the endpoint resolution |
| LookoutforVision.MissingParameterIdentifiesField | generated/src/aws-cpp-sdk-lookoutvision/source/LookoutforVisionClient.cpp:179-183 | two missing-field errors are equal exactly when they name the same field: the message identifies the field |
| LookoutforVision.CheckOrder | generated/src/aws-cpp-sdk-lookoutvision/source/LookoutforVisionClient.cpp:223-232 | ProjectName is reported before DatasetType or ModelVersion, ResourceArn before TagKeys |
| LookoutforVision.NoRequiredFields | generated/src/aws-cpp-sdk-lookoutvision/source/LookoutforVisionClient.cpp:209-217 | only CreateProject and ListProjects require nothing; they always go on to endpoint resolution |
| LookoutforVision.RequiredFieldsSet | generated/src/aws-cpp-sdk-lookoutvision/source/LookoutforVisionClient.cpp:184-189 | with the fields set, a failed resolution gives the endpoint resolution failure with the resolver's message and no path; a successful one dispatches the operation's path |
| LookoutforVision.DetectAnomaliesRequest | generated/src/aws-cpp-sdk-lookoutvision/source/LookoutforVisionClient.cpp:366-388 | DetectAnomalies POSTs to "/2020-11-20/projects/", ProjectName, "/models/", ModelVersion, "/detect" |
| LookoutforVision.UntagResourceRequest | generated/src/aws-cpp-sdk-lookoutvision/source/LookoutforVisionClient.cpp:555-574 | UntagResource requires TagKeys but sends DELETE to "/2020-11-20/tags/" and ResourceArn only |
| LookoutforVision.VerbFollowsAction | generated/src/aws-cpp-sdk-lookoutvision/source/LookoutforVisionClient.cpp:189 | GET is used exactly by the Describe and List operations, and PATCH exactly by UpdateDatasetEntries |
| SecurityHub.AutomationRulesConfig.constructor | generated/src/aws-cpp-sdk-securityhub/include/aws/securityhub/model/AutomationRulesConfig.h:548-579 | every HasBeenSet flag is false; strings, vectors and maps are empty |
| SecurityHub.AutomationRulesConfig.SetRuleArn | generated/src/aws-cpp-sdk-securityhub/include/aws/securityhub/model/AutomationRulesConfig.h:59 | the RuleArn becomes the given value and its flag becomes true; the frame lets nothing else change; no flag is cleared |
| SecurityHub.AutomationRulesConfig.WithRuleArn | generated/src/aws-cpp-sdk-securityhub/include/aws/securityhub/model/AutomationRulesConfig.h:74 | the same effect as SetRuleArn, and the result is the object itself |
| SecurityHub.AutomationRulesConfig.SetRuleStatus | generated/src/aws-cpp-sdk-securityhub/include/aws/securityhub/model/AutomationRulesConfig.h:106 | the RuleStatus becomes the given value and its flag becomes true; the frame lets nothing else change; no flag is cleared |
| SecurityHub.AutomationRulesConfig.WithRuleStatus | generated/src/aws-cpp-sdk-securityhub/include/aws/securityhub/model/AutomationRulesConfig.h:120 | the same effect as SetRuleStatus, and the result is the object itself |
| SecurityHub.AutomationRulesConfig.SetRuleOrder | generated/src/aws-cpp-sdk-securityhub/include/aws/securityhub/model/AutomationRulesConfig.h:149 | the RuleOrder becomes the given value (any value: no range is checked) and its flag becomes true; the frame lets nothing else change; no flag is cleared |
| SecurityHub.AutomationRulesConfig.WithRuleOrder | generated/src/aws-cpp-sdk-securityhub/include/aws/securityhub/model/AutomationRulesConfig.h:156 | the same effect as SetRuleOrder, and the result is the object itself |
| SecurityHub.AutomationRulesConfig.SetRuleName | generated/src/aws-cpp-sdk-securityhub/include/aws/securityhub/model/AutomationRulesConfig.h:172 | the RuleName becomes the given value and its flag becomes true; the frame lets nothing else change; no flag is cleared |
| SecurityHub.AutomationRulesConfig.WithRuleName | generated/src/aws-cpp-sdk-securityhub/include/aws/securityhub/model/AutomationRulesConfig.h:187 | the same effect as SetRuleName, and the result is the object itself |
| SecurityHub.AutomationRulesConfig.SetDescription | generated/src/aws-cpp-sdk-securityhub/include/aws/securityhub/model/AutomationRulesConfig.h:213 | the Description becomes the given value and its flag becomes true; the frame lets nothing else change; no flag is cleared |
| SecurityHub.AutomationRulesConfig.WithDescription | generated/src/aws-cpp-sdk-securityhub/include/aws/securityhub/model/AutomationRulesConfig.h:228 | the same effect as SetDescription, and the result is the object itself |
| SecurityHub.AutomationRulesConfig.SetIsTerminal | generated/src/aws-cpp-sdk-securityhub/include/aws/securityhub/model/AutomationRulesConfig.h:272 | the IsTerminal becomes the given value and its flag becomes true; the frame lets nothing else change; no flag is cleared |
| SecurityHub.AutomationRulesConfig.WithIsTerminal | generated/src/aws-cpp-sdk-securityhub/include/aws/securityhub/model/AutomationRulesConfig.h:283 | the same effect as SetIsTerminal, and the result is the object itself |
| SecurityHub.AutomationRulesConfig.SetCriteria | generated/src/aws-cpp-sdk-securityhub/include/aws/securityhub/model/AutomationRulesConfig.h:314 | the Criteria becomes the given value and its flag becomes true; the frame lets nothing else change; no flag is cleared |
| SecurityHub.AutomationRulesConfig.WithCriteria | generated/src/aws-cpp-sdk-securityhub/include/aws/securityhub/model/AutomationRulesConfig.h:334 | the same effect as SetCriteria, and the result is the object itself |
| SecurityHub.AutomationRulesConfig.SetActions | generated/src/aws-cpp-sdk-securityhub/include/aws/securityhub/model/AutomationRulesConfig.h:363 | the Actions becomes the given value and its flag becomes true; the frame lets nothing else change; no flag is cleared |
| SecurityHub.AutomationRulesConfig.WithActions | generated/src/aws-cpp-sdk-securityhub/include/aws/securityhub/model/AutomationRulesConfig.h:375 | the same effect as SetActions, and the result is the object itself |
| SecurityHub.AutomationRulesConfig.SetCreatedAt | generated/src/aws-cpp-sdk-securityhub/include/aws/securityhub/model/AutomationRulesConfig.h:421 | the CreatedAt becomes the given value and its flag becomes true; the frame lets nothing else change; no flag is cleared |
| SecurityHub.AutomationRulesConfig.WithCreatedAt | generated/src/aws-cpp-sdk-securityhub/include/aws/securityhub/model/AutomationRulesConfig.h:439 | the same effect as SetCreatedAt, and the result is the object itself |
| SecurityHub.AutomationRulesConfig.SetUpdatedAt | generated/src/aws-cpp-sdk-securityhub/include/aws/securityhub/model/AutomationRulesConfig.h:476 | the UpdatedAt becomes the given value and its flag becomes true; the frame lets nothing else change; no flag is cleared |
| SecurityHub.AutomationRulesConfig.WithUpdatedAt | generated/src/aws-cpp-sdk-securityhub/include/aws/securityhub/model/AutomationRulesConfig.h:494 | the same effect as SetUpdatedAt, and the result is the object itself |
| SecurityHub.AutomationRulesConfig.SetCreatedBy | generated/src/aws-cpp-sdk-securityhub/include/aws/securityhub/model/AutomationRulesConfig.h:519 | the CreatedBy becomes the given value and its flag becomes true; the frame lets nothing else change; no flag is cleared |
| SecurityHub.AutomationRulesConfig.WithCreatedBy | generated/src/aws-cpp-sdk-securityhub/include/aws/securityhub/model/AutomationRulesConfig.h:534 | the same effect as SetCreatedBy, and the result is the object itself |
| SecurityHub.AutomationRulesConfig.AddActions | generated/src/aws-cpp-sdk-securityhub/include/aws/securityhub/model/AutomationRulesConfig.h:387-393 | the element is appended after all the earlier ones and the flag becomes true; nothing else changes |
| SecurityHub.RuleOrderIsNotRangeChecked | generated/src/aws-cpp-sdk-securityhub/include/aws/securityhub/model/AutomationRulesConfig.h:130-149 | a rule order outside 1..1000 is stored as given, with its flag set |
| SecurityHub.BuildConfig | generated/src/aws-cpp-sdk-securityhub/include/aws/securityhub/model/AutomationRulesConfig.h:74-393 | chained With* and AddActions calls all land in the one object; the added action follows the list given to WithActions; untouched flags stay false |
| SecurityHub.UpdateAutomationRulesRequestItem.constructor | generated/src/aws-cpp-sdk-securityhub/include/aws/securityhub/model/UpdateAutomationRulesRequestItem.h:390-412 | every HasBeenSet flag is false; strings, vectors and maps are empty |
| SecurityHub.UpdateAutomationRulesRequestItem.SetRuleArn | generated/src/aws-cpp-sdk-securityhub/include/aws/securityhub/model/UpdateAutomationRulesRequestItem.h:58 | the RuleArn becomes the given value and its flag becomes true; the frame lets nothing else change |
| SecurityHub.UpdateAutomationRulesRequestItem.WithRuleArn | generated/src/aws-cpp-sdk-securityhub/include/aws/securityhub/model/UpdateAutomationRulesRequestItem.h:73 | the same effect as SetRuleArn, and the result is the object itself |
| SecurityHub.UpdateAutomationRulesRequestItem.SetRuleStatus | generated/src/aws-cpp-sdk-securityhub/include/aws/securityhub/model/UpdateAutomationRulesRequestItem.h:108 | the RuleStatus becomes the given value and its flag becomes true; the frame lets nothing else change |
| SecurityHub.UpdateAutomationRulesRequestItem.WithRuleStatus | generated/src/aws-cpp-sdk-securityhub/include/aws/securityhub/model/UpdateAutomationRulesRequestItem.h:124 | the same effect as SetRuleStatus, and the result is the object itself |
| SecurityHub.UpdateAutomationRulesRequestItem.SetRuleOrder | generated/src/aws-cpp-sdk-securityhub/include/aws/securityhub/model/UpdateAutomationRulesRequestItem.h:154 | the RuleOrder becomes the given value (any value: no range is checked) and its flag becomes true; the frame lets nothing else change |
| SecurityHub.UpdateAutomationRulesRequestItem.WithRuleOrder | generated/src/aws-cpp-sdk-securityhub/include/aws/securityhub/model/UpdateAutomationRulesRequestItem.h:161 | the same effect as SetRuleOrder, and the result is the object itself |
| SecurityHub.UpdateAutomationRulesRequestItem.SetDescription | generated/src/aws-cpp-sdk-securityhub/include/aws/securityhub/model/UpdateAutomationRulesRequestItem.h:177 | the Description becomes the given value and its flag becomes true; the frame lets nothing else change |
| SecurityHub.UpdateAutomationRulesRequestItem.WithDescription | generated/src/aws-cpp-sdk-securityhub/include/aws/securityhub/model/UpdateAutomationRulesRequestItem.h:192 | the same effect as SetDescription, and the result is the object itself |
| SecurityHub.UpdateAutomationRulesRequestItem.SetRuleName | generated/src/aws-cpp-sdk-securityhub/include/aws/securityhub/model/UpdateAutomationRulesRequestItem.h:218 | the RuleName becomes the given value and its flag becomes true; the frame lets nothing else change |
| SecurityHub.UpdateAutomationRulesRequestItem.WithRuleName | generated/src/aws-cpp-sdk-securityhub/include/aws/securityhub/model/UpdateAutomationRulesRequestItem.h:233 | the same effect as SetRuleName, and the result is the object itself |
| SecurityHub.UpdateAutomationRulesRequestItem.SetIsTerminal | generated/src/aws-cpp-sdk-securityhub/include/aws/securityhub/model/UpdateAutomationRulesRequestItem.h:277 | the IsTerminal becomes the given value and its flag becomes true; the frame lets nothing else change |
| SecurityHub.UpdateAutomationRulesRequestItem.WithIsTerminal | generated/src/aws-cpp-sdk-securityhub/include/aws/securityhub/model/UpdateAutomationRulesRequestItem.h:288 | the same effect as SetIsTerminal, and the result is the object itself |
| SecurityHub.UpdateAutomationRulesRequestItem.SetCriteria | generated/src/aws-cpp-sdk-securityhub/include/aws/securityhub/model/UpdateAutomationRulesRequestItem.h:313 | the Criteria becomes the given value and its flag becomes true; the frame lets nothing else change |
| SecurityHub.UpdateAutomationRulesRequestItem.WithCriteria | generated/src/aws-cpp-sdk-securityhub/include/aws/securityhub/model/UpdateAutomationRulesRequestItem.h:329 | the same effect as SetCriteria, and the result is the object itself |
| SecurityHub.UpdateAutomationRulesRequestItem.SetActions | generated/src/aws-cpp-sdk-securityhub/include/aws/securityhub/model/UpdateAutomationRulesRequestItem.h:356 | the Actions becomes the given value and its flag becomes true; the frame lets nothing else change |
| SecurityHub.UpdateAutomationRulesRequestItem.WithActions | generated/src/aws-cpp-sdk-securityhub/include/aws/securityhub/model/UpdateAutomationRulesRequestItem.h:368 | the same effect as SetActions, and the result is the object itself |
| SecurityHub.UpdateAutomationRulesRequestItem.AddActions | generated/src/aws-cpp-sdk-securityhub/include/aws/securityhub/model/UpdateAutomationRulesRequestItem.h:380-386 | the element is appended after all the earlier ones and the flag becomes true; nothing else changes |
| SecurityHub.SetActionsReplaces | generated/src/aws-cpp-sdk-securityhub/include/aws/securityhub/model/UpdateAutomationRulesRequestItem.h:356 | SetActions replaces the whole list, including an action appended before |
| Snowball.UpdateJobRequest.constructor | generated/src/aws-cpp-sdk-snowball/include/aws/snowball/model/UpdateJobRequest.h:509-537 | every HasBeenSet flag is false; strings, vectors and maps are empty |
| Snowball.UpdateJobRequest.SetJobId | generated/src/aws-cpp-sdk-snowball/include/aws/snowball/model/UpdateJobRequest.h:58 | the JobId becomes the given value and its flag becomes true; the frame lets nothing else change |
| Snowball.UpdateJobRequest.WithJobId | generated/src/aws-cpp-sdk-snowball/include/aws/snowball/model/UpdateJobRequest.h:76 | the same effect as SetJobId, and the result is the object itself |
| Snowball.UpdateJobRequest.SetRoleARN | generated/src/aws-cpp-sdk-snowball/include/aws/snowball/model/UpdateJobRequest.h:113 | the RoleARN becomes the given value and its flag becomes true; the frame lets nothing else change |
| Snowball.UpdateJobRequest.WithRoleARN | generated/src/aws-cpp-sdk-snowball/include/aws/snowball/model/UpdateJobRequest.h:137 | the same effect as SetRoleARN, and the result is the object itself |
| Snowball.UpdateJobRequest.SetNotification | generated/src/aws-cpp-sdk-snowball/include/aws/snowball/model/UpdateJobRequest.h:169 | the Notification becomes the given value and its flag becomes true; the frame lets nothing else change |
| Snowball.UpdateJobRequest.WithNotification | generated/src/aws-cpp-sdk-snowball/include/aws/snowball/model/UpdateJobRequest.h:179 | the same effect as SetNotification, and the result is the object itself |
| Snowball.UpdateJobRequest.SetResources | generated/src/aws-cpp-sdk-snowball/include/aws/snowball/model/UpdateJobRequest.h:203 | the Resources becomes the given value and its flag becomes true; the frame lets nothing else change |
| Snowball.UpdateJobRequest.WithResources | generated/src/aws-cpp-sdk-snowball/include/aws/snowball/model/UpdateJobRequest.h:215 | the same effect as SetResources, and the result is the object itself |
| Snowball.UpdateJobRequest.SetOnDeviceServiceConfiguration | generated/src/aws-cpp-sdk-snowball/include/aws/snowball/model/UpdateJobRequest.h:246 | the OnDeviceServiceConfiguration becomes the given value and its flag becomes true; the frame lets nothing else change |
| Snowball.UpdateJobRequest.WithOnDeviceServiceConfiguration | generated/src/aws-cpp-sdk-snowball/include/aws/snowball/model/UpdateJobRequest.h:262 | the same effect as SetOnDeviceServiceConfiguration, and the result is the object itself |
| Snowball.UpdateJobRequest.SetAddressId | generated/src/aws-cpp-sdk-snowball/include/aws/snowball/model/UpdateJobRequest.h:286 | the AddressId becomes the given value and its flag becomes true; the frame lets nothing else change |
| Snowball.UpdateJobRequest.WithAddressId | generated/src/aws-cpp-sdk-snowball/include/aws/snowball/model/UpdateJobRequest.h:301 | the same effect as SetAddressId, and the result is the object itself |
| Snowball.UpdateJobRequest.SetShippingOption | generated/src/aws-cpp-sdk-snowball/include/aws/snowball/model/UpdateJobRequest.h:330 | the ShippingOption becomes the given value and its flag becomes true; the frame lets nothing else change |
| Snowball.UpdateJobRequest.WithShippingOption | generated/src/aws-cpp-sdk-snowball/include/aws/snowball/model/UpdateJobRequest.h:342 | the same effect as SetShippingOption, and the result is the object itself |
| Snowball.UpdateJobRequest.SetDescription | generated/src/aws-cpp-sdk-snowball/include/aws/snowball/model/UpdateJobRequest.h:364 | the Description becomes the given value and its flag becomes true; the frame lets nothing else change |
| Snowball.UpdateJobRequest.WithDescription | generated/src/aws-cpp-sdk-snowball/include/aws/snowball/model/UpdateJobRequest.h:379 | the same effect as SetDescription, and the result is the object itself |
| Snowball.UpdateJobRequest.SetSnowballCapacityPreference | generated/src/aws-cpp-sdk-snowball/include/aws/snowball/model/UpdateJobRequest.h:423 | the SnowballCapacityPreference becomes the given value and its flag becomes true; the frame lets nothing else change |
| Snowball.UpdateJobRequest.WithSnowballCapacityPreference | generated/src/aws-cpp-sdk-snowball/include/aws/snowball/model/UpdateJobRequest.h:445 | the same effect as SetSnowballCapacityPreference, and the result is the object itself |
| Snowball.UpdateJobRequest.SetForwardingAddressId | generated/src/aws-cpp-sdk-snowball/include/aws/snowball/model/UpdateJobRequest.h:475 | the ForwardingAddressId becomes the given value and its flag becomes true; the frame lets nothing else change |
| Snowball.UpdateJobRequest.WithForwardingAddressId | generated/src/aws-cpp-sdk-snowball/include/aws/snowball/model/UpdateJobRequest.h:493 | the same effect as SetForwardingAddressId, and the result is the object itself |
| Snowball.ServiceRequestNameIsFixed | generated/src/aws-cpp-sdk-snowball/include/aws/snowball/model/UpdateJobRequest.h:35 | GetServiceRequestName is "UpdateJob" whatever the request holds |
| Snowball.LastJobIdWins | generated/src/aws-cpp-sdk-snowball/include/aws/snowball/model/UpdateJobRequest.h:58 | setting the job ID twice keeps the second value and the flag stays set |
| Snowball.OtherSettersKeepJobId | generated/src/aws-cpp-sdk-snowball/include/aws/snowball/model/UpdateJobRequest.h:330 | SetShippingOption and SetDescription leave the job ID and its flag as they were |
| ChimeSdkMessaging.ChannelMessage.constructor | generated/src/aws-cpp-sdk-chime-sdk-messaging/include/aws/chime-sdk-messaging/model/ChannelMessage.h:617-660 | every HasBeenSet flag is false; strings, vectors and maps are empty |
| ChimeSdkMessaging.ChannelMessage.SetChannelArn | generated/src/aws-cpp-sdk-chime-sdk-messaging/include/aws/chime-sdk-messaging/model/ChannelMessage.h:60 | the ChannelArn becomes the given value and its flag becomes true; the frame lets nothing else change |
| ChimeSdkMessaging.ChannelMessage.WithChannelArn | generated/src/aws-cpp-sdk-chime-sdk-messaging/include/aws/chime-sdk-messaging/model/ChannelMessage.h:75 | the same effect as SetChannelArn, and the result is the object itself |
| ChimeSdkMessaging.ChannelMessage.SetMessageId | generated/src/aws-cpp-sdk-chime-sdk-messaging/include/aws/chime-sdk-messaging/model/ChannelMessage.h:101 | the MessageId becomes the given value and its flag becomes true; the frame lets nothing else change |
| ChimeSdkMessaging.ChannelMessage.WithMessageId | generated/src/aws-cpp-sdk-chime-sdk-messaging/include/aws/chime-sdk-messaging/model/ChannelMessage.h:116 | the same effect as SetMessageId, and the result is the object itself |
| ChimeSdkMessaging.ChannelMessage.SetContent | generated/src/aws-cpp-sdk-chime-sdk-messaging/include/aws/chime-sdk-messaging/model/ChannelMessage.h:142 | the Content becomes the given value and its flag becomes true; the frame lets nothing else change |
| ChimeSdkMessaging.ChannelMessage.WithContent | generated/src/aws-cpp-sdk-chime-sdk-messaging/include/aws/chime-sdk-messaging/model/ChannelMessage.h:157 | the same effect as SetContent, and the result is the object itself |
| ChimeSdkMessaging.ChannelMessage.SetMetadata | generated/src/aws-cpp-sdk-chime-sdk-messaging/include/aws/chime-sdk-messaging/model/ChannelMessage.h:183 | the Metadata becomes the given value and its flag becomes true; the frame lets nothing else change |
| ChimeSdkMessaging.ChannelMessage.WithMetadata | generated/src/aws-cpp-sdk-chime-sdk-messaging/include/aws/chime-sdk-messaging/model/ChannelMessage.h:198 | the same effect as SetMetadata, and the result is the object itself |
| ChimeSdkMessaging.ChannelMessage.SetType | generated/src/aws-cpp-sdk-chime-sdk-messaging/include/aws/chime-sdk-messaging/model/ChannelMessage.h:224 | the Type becomes the given value and its flag becomes true; the frame lets nothing else change |
| ChimeSdkMessaging.ChannelMessage.WithType | generated/src/aws-cpp-sdk-chime-sdk-messaging/include/aws/chime-sdk-messaging/model/ChannelMessage.h:234 | the same effect as SetType, and the result is the object itself |
| ChimeSdkMessaging.ChannelMessage.SetCreatedTimestamp | generated/src/aws-cpp-sdk-chime-sdk-messaging/include/aws/chime-sdk-messaging/model/ChannelMessage.h:255 | the CreatedTimestamp becomes the given value and its flag becomes true; the frame lets nothing else change |
| ChimeSdkMessaging.ChannelMessage.WithCreatedTimestamp | generated/src/aws-cpp-sdk-chime-sdk-messaging/include/aws/chime-sdk-messaging/model/ChannelMessage.h:265 | the same effect as SetCreatedTimestamp, and the result is the object itself |
| ChimeSdkMessaging.ChannelMessage.SetLastEditedTimestamp | generated/src/aws-cpp-sdk-chime-sdk-messaging/include/aws/chime-sdk-messaging/model/ChannelMessage.h:286 | the LastEditedTimestamp becomes the given value and its flag becomes true; the frame lets nothing else change |
| ChimeSdkMessaging.ChannelMessage.WithLastEditedTimestamp | generated/src/aws-cpp-sdk-chime-sdk-messaging/include/aws/chime-sdk-messaging/model/ChannelMessage.h:296 | the same effect as SetLastEditedTimestamp, and the result is the object itself |
| ChimeSdkMessaging.ChannelMessage.SetLastUpdatedTimestamp | generated/src/aws-cpp-sdk-chime-sdk-messaging/include/aws/chime-sdk-messaging/model/ChannelMessage.h:317 | the LastUpdatedTimestamp becomes the given value and its flag becomes true; the frame lets nothing else change |
| ChimeSdkMessaging.ChannelMessage.WithLastUpdatedTimestamp | generated/src/aws-cpp-sdk-chime-sdk-messaging/include/aws/chime-sdk-messaging/model/ChannelMessage.h:327 | the same effect as SetLastUpdatedTimestamp, and the result is the object itself |
| ChimeSdkMessaging.ChannelMessage.SetSender | generated/src/aws-cpp-sdk-chime-sdk-messaging/include/aws/chime-sdk-messaging/model/ChannelMessage.h:348 | the Sender becomes the given value and its flag becomes true; the frame lets nothing else change |
| ChimeSdkMessaging.ChannelMessage.WithSender | generated/src/aws-cpp-sdk-chime-sdk-messaging/include/aws/chime-sdk-messaging/model/ChannelMessage.h:358 | the same effect as SetSender, and the result is the object itself |
| ChimeSdkMessaging.ChannelMessage.SetRedacted | generated/src/aws-cpp-sdk-chime-sdk-messaging/include/aws/chime-sdk-messaging/model/ChannelMessage.h:379 | the Redacted becomes the given value and its flag becomes true; the frame lets nothing else change |
| ChimeSdkMessaging.ChannelMessage.WithRedacted | generated/src/aws-cpp-sdk-chime-sdk-messaging/include/aws/chime-sdk-messaging/model/ChannelMessage.h:384 | the same effect as SetRedacted, and the result is the object itself |
| ChimeSdkMessaging.ChannelMessage.SetPersistence | generated/src/aws-cpp-sdk-chime-sdk-messaging/include/aws/chime-sdk-messaging/model/ChannelMessage.h:400 | the Persistence becomes the given value and its flag becomes true; the frame lets nothing else change |
| ChimeSdkMessaging.ChannelMessage.WithPersistence | generated/src/aws-cpp-sdk-chime-sdk-messaging/include/aws/chime-sdk-messaging/model/ChannelMessage.h:410 | the same effect as SetPersistence, and the result is the object itself |
| ChimeSdkMessaging.ChannelMessage.SetStatus | generated/src/aws-cpp-sdk-chime-sdk-messaging/include/aws/chime-sdk-messaging/model/ChannelMessage.h:431 | the Status becomes the given value and its flag becomes true; the frame lets nothing else change |
| ChimeSdkMessaging.ChannelMessage.WithStatus | generated/src/aws-cpp-sdk-chime-sdk-messaging/include/aws/chime-sdk-messaging/model/ChannelMessage.h:441 | the same effect as SetStatus, and the result is the object itself |
| ChimeSdkMessaging.ChannelMessage.SetMessageAttributes | generated/src/aws-cpp-sdk-chime-sdk-messaging/include/aws/chime-sdk-messaging/model/ChannelMessage.h:468 | the MessageAttributes becomes the given value and its flag becomes true; the frame lets nothing else change |
| ChimeSdkMessaging.ChannelMessage.WithMessageAttributes | generated/src/aws-cpp-sdk-chime-sdk-messaging/include/aws/chime-sdk-messaging/model/ChannelMessage.h:482 | the same effect as SetMessageAttributes, and the result is the object itself |
| ChimeSdkMessaging.ChannelMessage.SetSubChannelId | generated/src/aws-cpp-sdk-chime-sdk-messaging/include/aws/chime-sdk-messaging/model/ChannelMessage.h:547 | the SubChannelId becomes the given value and its flag becomes true; the frame lets nothing else change |
| ChimeSdkMessaging.ChannelMessage.WithSubChannelId | generated/src/aws-cpp-sdk-chime-sdk-messaging/include/aws/chime-sdk-messaging/model/ChannelMessage.h:562 | the same effect as SetSubChannelId, and the result is the object itself |
| ChimeSdkMessaging.ChannelMessage.SetContentType | generated/src/aws-cpp-sdk-chime-sdk-messaging/include/aws/chime-sdk-messaging/model/ChannelMessage.h:588 | the ContentType becomes the given value and its flag becomes true; the frame lets nothing else change |
| ChimeSdkMessaging.ChannelMessage.WithContentType | generated/src/aws-cpp-sdk-chime-sdk-messaging/include/aws/chime-sdk-messaging/model/ChannelMessage.h:603 | the same effect as SetContentType, and the result is the object itself |
| ChimeSdkMessaging.ChannelMessage.AddMessageAttributes | generated/src/aws-cpp-sdk-chime-sdk-messaging/include/aws/chime-sdk-messaging/model/ChannelMessage.h:496-531 | a new key is inserted; an existing key keeps its old value (emplace); the flag is set either way; nothing else changes |
| ChimeSdkMessaging.FirstAttributeWins | generated/src/aws-cpp-sdk-chime-sdk-messaging/include/aws/chime-sdk-messaging/model/ChannelMessage.h:468 | adding a new key twice leaves the map with the first value under it (returned as afterAdds); SetMessageAttributes then replaces the whole map |
| SecurityLake.CreateDataLakeRequest.constructor | generated/src/aws-cpp-sdk-securitylake/include/aws/securitylake/model/CreateDataLakeRequest.h:144-148 | every HasBeenSet flag is false; strings, vectors and maps are empty |
| SecurityLake.CreateDataLakeRequest.SetConfigurations | generated/src/aws-cpp-sdk-securitylake/include/aws/securitylake/model/CreateDataLakeRequest.h:53 | the Configurations becomes the given value and its flag becomes true; the frame lets nothing else change |
| SecurityLake.CreateDataLakeRequest.WithConfigurations | generated/src/aws-cpp-sdk-securitylake/include/aws/securitylake/model/CreateDataLakeRequest.h:65 | the same effect as SetConfigurations, and the result is the object itself |
| SecurityLake.CreateDataLakeRequest.SetMetaStoreManagerRoleArn | generated/src/aws-cpp-sdk-securitylake/include/aws/securitylake/model/CreateDataLakeRequest.h:105 | the MetaStoreManagerRoleArn becomes the given value and its flag becomes true; the frame lets nothing else change |
| SecurityLake.CreateDataLakeRequest.WithMetaStoreManagerRoleArn | generated/src/aws-cpp-sdk-securitylake/include/aws/securitylake/model/CreateDataLakeRequest.h:126 | the same effect as SetMetaStoreManagerRoleArn, and the result is the object itself |
| SecurityLake.CreateDataLakeRequest.AddConfigurations | generated/src/aws-cpp-sdk-securitylake/include/aws/securitylake/model/CreateDataLakeRequest.h:77-83 | the element is appended after all the earlier ones and the flag becomes true; nothing else changes |
| SecurityLake.ServiceRequestNameIsFixed | generated/src/aws-cpp-sdk-securitylake/include/aws/securitylake/model/CreateDataLakeRequest.h:32 | GetServiceRequestName is "CreateDataLake" whatever the request holds |
| AppStream.ComputeCapacityStatus.constructor | generated/src/aws-cpp-sdk-appstream/include/aws/appstream/model/ComputeCapacityStatus.h:127-137 | every HasBeenSet flag is false |
| AppStream.ComputeCapacityStatus.SetDesired | generated/src/aws-cpp-sdk-appstream/include/aws/appstream/model/ComputeCapacityStatus.h:51 | the Desired becomes the given value (any value: no range is checked) and its flag becomes true; the frame lets nothing else change |
| AppStream.ComputeCapacityStatus.WithDesired | generated/src/aws-cpp-sdk-appstream/include/aws/appstream/model/ComputeCapacityStatus.h:56 | the same effect as SetDesired, and the result is the object itself |
| AppStream.ComputeCapacityStatus.SetRunning | generated/src/aws-cpp-sdk-appstream/include/aws/appstream/model/ComputeCapacityStatus.h:72 | the Running becomes the given value (any value: no range is checked) and its flag becomes true; the frame lets nothing else change |
| AppStream.ComputeCapacityStatus.WithRunning | generated/src/aws-cpp-sdk-appstream/include/aws/appstream/model/ComputeCapacityStatus.h:77 | the same effect as SetRunning, and the result is the object itself |
| AppStream.ComputeCapacityStatus.SetInUse | generated/src/aws-cpp-sdk-appstream/include/aws/appstream/model/ComputeCapacityStatus.h:93 | the InUse becomes the given value (any value: no range is checked) and its flag becomes true; the frame lets nothing else change |
| AppStream.ComputeCapacityStatus.WithInUse | generated/src/aws-cpp-sdk-appstream/include/aws/appstream/model/ComputeCapacityStatus.h:98 | the same effect as SetInUse, and the result is the object itself |
| AppStream.ComputeCapacityStatus.SetAvailable | generated/src/aws-cpp-sdk-appstream/include/aws/appstream/model/ComputeCapacityStatus.h:117 | the Available becomes the given value (any value: no range is checked) and its flag becomes true; the frame lets nothing else change |
| AppStream.ComputeCapacityStatus.WithAvailable | generated/src/aws-cpp-sdk-appstream/include/aws/appstream/model/ComputeCapacityStatus.h:123 | the same effect as SetAvailable, and the result is the object itself |
| AppStream.InUseAboveRunningIsStorable | generated/src/aws-cpp-sdk-appstream/include/aws/appstream/model/ComputeCapacityStatus.h:72-98 | a status with more instances in use than running can be built: the setters relate no two counters |
| SsoAdmin.ListPermissionSetsProvisionedToAccountResult.constructor | generated/src/aws-cpp-sdk-sso-admin/include/aws/sso-admin/model/ListPermissionSetsProvisionedToAccountResult.h:143-147 | strings and the vector are empty |
| SsoAdmin.ListPermissionSetsProvisionedToAccountResult.SetNextToken | generated/src/aws-cpp-sdk-sso-admin/include/aws/sso-admin/model/ListPermissionSetsProvisionedToAccountResult.h:46 | the NextToken becomes the given value; the frame lets nothing else change |
| SsoAdmin.ListPermissionSetsProvisionedToAccountResult.WithNextToken | generated/src/aws-cpp-sdk-sso-admin/include/aws/sso-admin/model/ListPermissionSetsProvisionedToAccountResult.h:64 | the same effect as SetNextToken, and the result is the object itself |
| SsoAdmin.ListPermissionSetsProvisionedToAccountResult.SetPermissionSets | generated/src/aws-cpp-sdk-sso-admin/include/aws/sso-admin/model/ListPermissionSetsProvisionedToAccountResult.h:87 | the PermissionSets becomes the given value; the frame lets nothing else change |
| SsoAdmin.ListPermissionSetsProvisionedToAccountResult.WithPermissionSets | generated/src/aws-cpp-sdk-sso-admin/include/aws/sso-admin/model/ListPermissionSetsProvisionedToAccountResult.h:97 | the same effect as SetPermissionSets, and the result is the object itself |
| SsoAdmin.ListPermissionSetsProvisionedToAccountResult.SetRequestId | generated/src/aws-cpp-sdk-sso-admin/include/aws/sso-admin/model/ListPermissionSetsProvisionedToAccountResult.h:124 | the RequestId becomes the given value; the frame lets nothing else change |
| SsoAdmin.ListPermissionSetsProvisionedToAccountResult.WithRequestId | generated/src/aws-cpp-sdk-sso-admin/include/aws/sso-admin/model/ListPermissionSetsProvisionedToAccountResult.h:133 | the same effect as SetRequestId, and the result is the object itself |
| SsoAdmin.ListPermissionSetsProvisionedToAccountResult.AddPermissionSets | generated/src/aws-cpp-sdk-sso-admin/include/aws/sso-admin/model/ListPermissionSetsProvisionedToAccountResult.h:107-117 | the element is appended after all the earlier ones; nothing else changes |
| SsoAdmin.CollectPage | generated/src/aws-cpp-sdk-sso-admin/include/aws/sso-admin/model/ListPermissionSetsProvisionedToAccountResult.h:107-117 | appending ARNs one by one leaves them after the earlier ones in call order; the token and request ID do not change |

## Left out

- `HashingUtils::HashString` is a function parameter, so every mapper result holds for any hash function. Its code is not part of this model.
- `Aws::GetEnumOverflowContainer()` is the container reference the lookup is given, possibly null. The container's locking and its other members are not modelled. `StoreOverflow` is taken to overwrite an earlier entry under the same code.
- The numbers of `H265TimecodeInsertionBehavior`'s enumerators come from a header that is not part of this model. They are taken as NOT_SET = 0, DISABLED = 1 and PIC_TIMING_SEI = 2.
- The JSON types of `JsonView` are reduced to strings and booleans. `GetString` of a member that is not a string is modelled as "", and `GetBool` of one that is not a boolean as false. The real conversions of `JsonView` are not part of this model.
- `JSModuleMapper`, `JSTargetMapper` and `JSScriptMapper` are function parameters. Their own overflow-table writes are not modelled here; the round-trip lemmas take as a precondition that these mappers give values back.
- `LookoutforVisionClient` has 22 operation methods (`CreateDataset` … `UpdateDatasetEntries`), and all 22 are modelled.
- The client's `AWS_OPERATION_GUARD` (the first statement of every operation), its `AWS_OPERATION_CHECK_PTR` guard on a missing endpoint provider and its `AWS_LOGSTREAM_ERROR` calls are not modelled. The macros' bodies are not part of this model. The model describes an initialised client whose endpoint provider exists, and endpoint resolution is an input, the outcome of `ResolveEndpoint`.
- `AWS_OPERATION_CHECK_SUCCESS` turns a failed resolution into the operation's error. Its body is not part of this model. The model keeps only what its arguments show: an error of type `CoreErrors::ENDPOINT_RESOLUTION_FAILURE` carrying the resolver's message. It promises no exception name and no retryable flag for that error.
- The client's `MakeRequest`, SigV4 signing, credentials, telemetry, executors and the `*Callable`/`*Async` wrappers are left out. They are I/O and concurrency. The model stops at the arguments handed to `MakeRequest`.
- `UpdateAutomationRulesRequestItem`, `AutomationRulesConfig`, `ChannelMessage` and `ComputeCapacityStatus` each have a JSON constructor, `operator=` and `Jsonize`. These are declared in the headers but defined in source files that are not part of this model.
- The same goes for the request classes' `SerializePayload` and `GetRequestSpecificHeaders`, and for the result class's constructor from a web-service result.
- Nested model types and enums (`RuleStatus`, `AutomationRulesFindingFilters`, `Identity`, `ShippingOption`, …) are opaque placeholder values. Enums are carried as their integer values.
- `Get*` and `*HasBeenSet()` are plain reads of a field and are modelled as the fields themselves.
- The `const char*` and rvalue overloads of each setter, `With*` and `Add*` have the same effect as the `const&` overload. Only that overload is modelled.
- The default constructors of the header classes leave `int` and `bool` members without an initializer in the header. Their constructors promise nothing about those values, only that every flag is false and strings and containers are empty.
