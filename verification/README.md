# SuryaSaathi verification core in Dafny

SuryaSaathi checks rooftop-solar subsidy applications. An applicant submits an
application with three photos: a wide rooftop shot, a serial-number close-up and
an inverter photo. A background pipeline then runs four checks:

- GPS location;
- shadow/sun-angle consistency;
- satellite panel counting;
- equipment serial lookup in the ALMM registry.

It combines the four scores into a weighted confidence and decides to approve,
reject or flag the application for manual review. It stores the report with the
final status and pushes a notification. A separate batch pipeline runs the
satellite check over a table of samples and writes one prediction record per row.

This project models that scoring and decision chain as pure Dafny functions over
immutable datatypes and proves its properties. Scores, weights and distances are
exact `real`s. Dates are integer day numbers. Anything that comes from outside
is a function-typed parameter:

- the photos in storage;
- EXIF parsing;
- the OCR reader;
- the YOLO detector;
- the Sentinel Hub credentials and imagery;
- the solar ephemeris;
- the clock;
- the energy estimate;
- whether a path is writable.

Modules, one per source concern:

| module | file | what it holds |
|---|---|---|
| `Wrappers`, `Numeric`, `Text` | wrappers.dfy, numeric.dfy, text.dfy | `Option`/`Result`; `round`, `int()`, `abs`; `strip`, `upper`, number text |
| `Config` | config.dfy | weights and thresholds of `Settings` |
| `Models` | models.dfy | backend records with their Pydantic constraints |
| `PipelineModels` | pipeline_models.dfy | batch-pipeline records and `QCStatus` |
| `Aggregator` | aggregator.dfy | the weighted mean of the four check scores |
| `DecisionEngine` | decision.dfy | threshold ladder and report assembly |
| `PanelLadder` | ladder.dfy | the two satellite panel-count score ladders |
| `Yolo` | yolo.dfy | post-processing of detector output |
| `BackendSatellite` | satellite.dfy | backend `satellite_verification` |
| `PipelineSatellite` | pipeline_satellite.dfy | batch `get_sh_session`, `fetch_sh_image` and `satellite_verification` |
| `PhotoForensics` | photo_forensics.dfy | `extract_exif_data`, `gps_check`, `shadow_analysis_check` |
| `EquipmentCheck` | equipment.dfy | OCR text filter, `check_almm_list`, `equipment_verification` |
| `Orchestrator` | orchestrator.dfy | `run_verification_pipeline` as a list of store effects |
| `Storage` | storage.dfy | `get_storage_path`, `save_uploaded_files`, `get_file_content` |
| `Endpoints` | endpoints.dfy | `submit_application`, `get_application_details`, `get_verification_report` |
| `BatchPipeline` | batch.dfy | `process_sample` and `main_pipeline` |

The model follows the code as written:

- The final write is unconditional. There is no compare-and-set.
- Nothing stops a second submission or a second run.
- No handler turns a failed run into `manual_review`. An exception leaves the application in `"verifying"`.
- The decision uses the unrounded confidence, while the report stores `round(confidence, 4)`.
- The report endpoint answers 409 only for `"initial_application"` and `"verifying"`. A `"submitted"` application without a report gets 404.

## Model

| member | source | states |
|---|---|---|
| Config.Defaults | deliverables/pipeline_code/core/config.py:25-32 | the shipped weights are non-negative and sum to 1.0, and 0 ≤ review threshold < approve threshold ≤ 1 |
| Aggregator.WeightedMean | backend/services/ml_pipeline.py:106-109 | with a positive total weight, the mean times the total weight is the weighted score sum; otherwise the mean is 0.0 |
| Aggregator.Confidence | backend/services/ml_pipeline.py:99-109 | the confidence of check scores in [0,1] under non-negative weights lies in [0,1] |
| Aggregator.ScoreListEntry | backend/services/ml_pipeline.py:99-104 | the score list pairs each of the four checks with that check's own configured weight |
| Aggregator.ConfidenceIsFourTermMean | backend/services/ml_pipeline.py:99-109 | confidence is Σ score·weight / Σ weight over exactly GPS, shadow, satellite and equipment when the total weight is positive, and 0.0 otherwise |
| Aggregator.ProductsBoundedByWeights | backend/services/ml_pipeline.py:106-107 | with scores in [0,1] and non-negative weights, 0 ≤ Σ score·weight ≤ Σ weight (by induction over the list) |
| Aggregator.MeanInUnit | backend/services/ml_pipeline.py:106-109 | the weighted mean of scores in [0,1] under non-negative weights lies in [0,1], including the zero-weight fallback |
| Aggregator.ConfidenceInUnit | backend/services/ml_pipeline.py:99-109 | with valid check scores and non-negative weights the final confidence is in [0,1] |
| Aggregator.ReplaceScoreKeepsWeights | backend/services/ml_pipeline.py:107 | changing one check's score leaves the denominator unchanged |
| Aggregator.ReplaceScoreShiftsProducts | backend/services/ml_pipeline.py:106 | changing one score from s to v shifts the numerator by exactly (v − s)·weight |
| Aggregator.MeanMonotone | backend/services/ml_pipeline.py:106-109 | raising one score never lowers the weighted mean |
| Aggregator.ConfidenceMonotone | backend/services/ml_pipeline.py:99-109 | confidence is non-decreasing in each single check score |
| Aggregator.ZeroCheckCapsProducts | backend/services/ml_pipeline.py:99-107 | a check scoring 0.0 still counts in the denominator; the numerator is at most the total weight minus its weight |
| Aggregator.ZeroCheckCapsConfidence | backend/services/ml_pipeline.py:99-109 | a check scoring 0.0 caps confidence at (W − w_check)/W |
| DecisionEngine.Decide | backend/services/ml_pipeline.py:113-120 | approve iff confidence ≥ approve threshold (equality approves); reject iff below both thresholds; manual review iff review ≤ confidence < approve; the three are exclusive and the status is always a final one |
| DecisionEngine.DecideMonotone | backend/services/ml_pipeline.py:113-120 | with ordered thresholds a higher confidence never gets a worse outcome |
| DecisionEngine.ThresholdBoundaries | backend/services/ml_pipeline.py:115-118 | confidence exactly at the approve threshold approves, and exactly at the review threshold goes to manual review, not rejection |
| DecisionEngine.AssembleReport | backend/services/ml_pipeline.py:124-132 | the report builds iff all four results are valid and the rounded confidence is in [0,1] (always so when the confidence is); it stores a confidence within 0.00005 of the unrounded one and the decision and reasoning taken on the unrounded value |
| DecisionEngine.RoundedScoreCanDisagreeWithDecision | backend/services/ml_pipeline.py:115-129 | confidence 0.84996 is stored as 0.85, at the approve threshold, yet the decision is manual review |
| DecisionEngine.AnyFailedCheckBlocksApproval | backend/services/ml_pipeline.py:99-117 | under the batch pipeline's `Settings` values (standing in for the backend's configuration), any single check scoring 0.0 keeps confidence ≤ 0.8, so the application is never auto-approved |
| DecisionEngine.ScenarioAllPass | deliverables/pipeline_code/core/config.py:25-32 | all four scores 1.0 give confidence 1.0 and approval |
| DecisionEngine.ScenarioMostlyFailing | deliverables/pipeline_code/core/config.py:25-32 | scores (0, 0.2, 0.5, 0) give confidence 0.19 and rejection |
| DecisionEngine.ScenarioSatelliteFailing | deliverables/pipeline_code/core/config.py:25-32 | a failed satellite check with the rest at 1.0 gives 0.7 and manual review |
| Numeric.RoundHalfEven | backend/services/ml_pipeline.py:129 | the result is within one half of its argument, and even when the argument lies exactly half-way between two integers |
| Numeric.RoundHalfEvenUnique | backend/services/ml_pipeline.py:129 | any integer within one half of y that is even on a tie is the half-even rounding of y |
| Numeric.RoundScaled | backend/services/ml_pipeline.py:129 | the scaled count is the half-even nearest integer to x·10^n, and lies in [0, 10^n] for x in [0,1] |
| Numeric.Round | backend/services/ml_pipeline.py:129 | `round(x, n)` is that half-even count of 10^-n units, and keeps a value of [0,1] in [0,1] |
| Numeric.RoundIsHalfEven | backend/services/ml_pipeline.py:129 | an integer k is within one half of x·10^n and even on a tie iff k is the scaled count, iff `round(x, n)` · 10^n equals k; a half-up rounding does not satisfy it |
| Numeric.RoundClose | backend/services/ml_pipeline.py:129 | `round(x, n)` is at most half a unit in the n-th decimal place away from x |
| Numeric.Round4Close | backend/services/ml_pipeline.py:129 | `round(x, 4)` is within 0.00005 of x |
| Numeric.Round2Close | deliverables/pipeline_code/main_pipeline.py:53 | `round(x, 2)` is within 0.005 of x |
| Numeric.RoundStaysInUnit | backend/services/ml_pipeline.py:129 | rounding a value in [0,1] to any number of places stays in [0,1] |
| Models.NewMetricScore | backend/models/application.py:8-11 | a metric score is accepted iff its score is in [0,1] and then keeps score and details |
| Models.NewShadowResult | backend/models/application.py:22-26 | the shadow result inherits the [0,1] score constraint and nothing else |
| Models.NewSatelliteResult | backend/models/application.py:29-33 | accepted iff score in [0,1] and both panel counts ≥ 0 (defaulting to 0); keeps the counts |
| Models.NewEquipmentResult | backend/models/application.py:36-39 | accepted iff score in [0,1]; serial lists default to empty |
| Models.NewReport | backend/models/application.py:48-59 | a report needs all four check results, each valid, and a confidence in [0,1] |
| Models.NewApplication | backend/models/application.py:64-93 | an application is accepted iff declared panels ≥ 1 and any report is valid; status and report are as given |
| Models.NewApplicationCreate | backend/models/application.py:100-108 | the form is accepted iff declared panels ≥ 1, otherwise rejected on that field |
| Models.ApplicationDefaults | backend/models/application.py:82-86 | omitted status and report default to "submitted" and no report |
| PipelineModels.QCNamesDistinct | deliverables/pipeline_code/models/application.py:7-9 | the two QC names VERIFIABLE and NOT_VERIFIABLE are distinct, so the name identifies the status |
| PipelineModels.NewMetricScore | deliverables/pipeline_code/models/application.py:13-15 | accepted iff score in [0,1] |
| PipelineModels.NewSatelliteResult | deliverables/pipeline_code/models/application.py:19-31 | accepted iff score and YOLO confidence are both in [0,1]; keeps QC status and metadata |
| PipelineModels.MetadataDefaultsEmpty | deliverables/pipeline_code/models/application.py:31 | omitted image metadata defaults to the empty dict |
| PanelLadder.Bucket.Score | backend/services/satellite_analysis.py:159-177 | every bucket scores in [0,1]; 0.0 exactly for no post-install panels and 1.0 exactly for a verified count |
| PanelLadder.MismatchBucket | backend/services/satellite_analysis.py:166-177 | count difference ≤ 2 verifies (1.0), 3..10 is close (0.8), more is a mismatch (0.5) |
| PanelLadder.BackendBucket | backend/services/satellite_analysis.py:159-177 | no post panels first (0.0); then a decrease with pre > 0 (0.1); otherwise the mismatch ladder on \|post − declared\| |
| PanelLadder.PipelineBucket | deliverables/pipeline_code/services/satellite_analysis.py:305-322 | the same ladder, but the decrease test is pre > post with no pre > 0 guard |
| PanelLadder.ScoresAreLadderValues | backend/services/satellite_analysis.py:159-177 | every ladder score is one of 0.0, 0.1, 0.5, 0.8, 1.0, all in [0,1] |
| PanelLadder.MismatchScoreAntitone | backend/services/satellite_analysis.py:166-177 | a larger count difference never scores higher |
| PanelLadder.LaddersAgree | deliverables/pipeline_code/services/satellite_analysis.py:305-322 | on non-negative counts the two ladders pick the same bucket |
| PanelLadder.LaddersDivergeOnNegativePre | deliverables/pipeline_code/services/satellite_analysis.py:308 | with negative counts the ladders differ (pre −1, post −3): backend falls to the mismatch ladder, batch calls it a decrease |
| Yolo.FrameAverage | backend/services/satellite_analysis.py:106-111 | a frame's average confidence times its box count is the confidence sum; no boxes gives 0.0 |
| Yolo.FrameAverageInUnit | backend/services/satellite_analysis.py:106-111 | the average of confidences in [0,1] is in [0,1] |
| Yolo.ScanFrames | deliverables/pipeline_code/services/satellite_analysis.py:218-235 | the loop keeps the last frame's count and average; the area is 0 when no frame has masks and otherwise the mask area of the last frame that has masks; there is an overlay iff some frame was encoded, and it is the last encoded one |
| Yolo.Detect | deliverables/pipeline_code/services/satellite_analysis.py:197-239 | an unavailable model or undecodable image gives (0, 0.0, 0.0, None); a result list with no frames raises; otherwise the count and average confidence are the last frame's, the area is the last masked frame's pixel area times the square-metre factor, and the overlay is the last encoded one |
| Yolo.DetectionInRange | deliverables/pipeline_code/services/satellite_analysis.py:197-239 | with confidences in [0,1] and non-negative areas, the average is in [0,1] and the area is ≥ 0 |
| BackendSatellite.SatelliteVerification | backend/services/satellite_analysis.py:120-187 | pre-image failure gives 0.0 with both counts 0; post-image failure gives 0.0, keeps the pre count, post 0; otherwise the backend ladder score with the detected counts and post confidence echoed; every result is valid with a ladder score |
| BackendSatellite.NoPostPanelsScoresZero | backend/services/satellite_analysis.py:159-161 | zero post-install panels always scores 0.0 |
| PipelineSatellite.RadiusKey | deliverables/pipeline_code/services/satellite_analysis.py:64 | a tabulated buffer (1200 or 2400) keeps its radius; any other falls back to 2400 |
| PipelineSatellite.ImageSize | deliverables/pipeline_code/services/satellite_analysis.py:149-151 | each requested side is at least 100 pixels and equals the truncated extent/10 m when that is larger |
| PipelineSatellite.FetchShImage | deliverables/pipeline_code/services/satellite_analysis.py:172-188 | an image comes back iff the request returned exactly two parts; then metadata is exactly source and capture date (tileDate or "N/A"); otherwise (None, {}) |
| PipelineSatellite.PreWindow | deliverables/pipeline_code/services/satellite_analysis.py:254-259 | the pre-install window is [submission − 180 days, submission] |
| PipelineSatellite.PostWindow | deliverables/pipeline_code/services/satellite_analysis.py:262 | the post-install window is [submission, today] |
| PipelineSatellite.FetchFailure | deliverables/pipeline_code/services/satellite_analysis.py:268-287 | a fetch failure scores 0.0, NOT_VERIFIABLE, post count 0, with the given pre count and metadata |
| PipelineSatellite.ScoreDetections | deliverables/pipeline_code/services/satellite_analysis.py:300-336 | the detection path is VERIFIABLE with score bucket × satellite weight, the detected counts, the post confidence and the post metadata; it validates iff that score and the confidence are in [0,1] |
| PipelineSatellite.AfterPreFetch | deliverables/pipeline_code/services/satellite_analysis.py:275-336 | a failed pre detection raises before the post request; otherwise exactly the post request (1200 sq ft, post window) is made; a failed post fetch gives the 0.0 NOT_VERIFIABLE result with the detected pre count and the pre metadata; a failed post detection raises; two detections give the VERIFIABLE scoring of the detected counts and confidence with the post metadata |
| PipelineSatellite.SatelliteVerification | deliverables/pipeline_code/services/satellite_analysis.py:243-336 | an unparsable date raises before any request; the pre request (2400 sq ft, pre window) comes first; a failed pre fetch returns the 0.0 NOT_VERIFIABLE result with empty metadata after one request; after a fetched pre image, a failed pre detection raises, a failed post fetch gives the 0.0 NOT_VERIFIABLE result with the pre count and pre metadata after both requests, and two detections give the VERIFIABLE score of the detected counts with the post metadata |
| PipelineSatellite.ReadCredential | deliverables/pipeline_code/services/satellite_analysis.py:46-47 | reading a declared credential gives its value; any other name raises AttributeError |
| PipelineSatellite.SessionFrom | deliverables/pipeline_code/services/satellite_analysis.py:45-50 | a session opens iff both reads succeeded and both credentials are non-empty, and it carries them |
| PipelineSatellite.ShSessionAsWritten | deliverables/pipeline_code/services/satellite_analysis.py:41-56 | as written, the session always raises AttributeError for SENTEL_HUB_CLIENT_SECRET |
| PipelineSatellite.ShSessionFixed | deliverables/pipeline_code/services/satellite_analysis.py:41-56 | reading the declared secret, the session opens iff both credentials are non-empty |
| PipelineSatellite.ThroughSession | deliverables/pipeline_code/services/satellite_analysis.py:144-145 | a fetch whose session raises is caught like a raised request; with a session, the fetch sees the service's answer |
| PipelineSatellite.SatelliteVerificationAsWritten | deliverables/pipeline_code/services/satellite_analysis.py:243-336 | as shipped, an unparsable date raises and a parsable one always returns a NOT_VERIFIABLE result |
| PipelineSatellite.MisspeltSecretNeverVerifies | deliverables/pipeline_code/services/satellite_analysis.py:47 | for every credential value and imagery service, a parsed date yields exactly the 0.0 NOT_VERIFIABLE pre-fetch result after the single pre-install fetch |
| PipelineSatellite.SatelliteVerificationFixed | deliverables/pipeline_code/services/satellite_analysis.py:41-56 | with the secret read correctly, non-empty credentials give the verification the imagery answers decide; empty ones give the pre-fetch failure |
| PipelineSatellite.SameImagerySameRun | deliverables/pipeline_code/services/satellite_analysis.py:243-336 | two imagery services that answer every request alike yield the same run |
| PipelineSatellite.DefaultCredentialsReachImagery | deliverables/pipeline_code/core/config.py:17-18 | the shipped default credentials open the corrected session, so the corrected verification is the imagery-driven one |
| PipelineSatellite.WeightedScoreBounded | deliverables/pipeline_code/services/satellite_analysis.py:324-325 | the returned score never exceeds the satellite weight |
| PipelineSatellite.VerificationSucceeds | deliverables/pipeline_code/services/satellite_analysis.py:243-336 | with a parsable date, a satellite weight in [0,1] and a well-formed detector, the verification never raises |
| PipelineSatellite.DoubleWeightingBlocksApproval | deliverables/pipeline_code/services/satellite_analysis.py:324-325 | hypothetical, since no code path does it: if the already-weighted satellite score were fed to the aggregator, confidence would stay below 0.85 even with every other check at 1.0 |
| PhotoForensics.TagMap | deliverables/pipeline_code/services/photo_forensics.py:21-24 | the EXIF dict has exactly the decoded tags, and each maps to the value of its last occurrence: no later item carries that tag |
| PhotoForensics.ExtractExif | deliverables/pipeline_code/services/photo_forensics.py:15-37 | extraction never fails: on an error it returns the tags collected before it, possibly none |
| PhotoForensics.CaptureTime | deliverables/pipeline_code/services/photo_forensics.py:62 | capture time is DateTimeOriginal when present, else the current time |
| PhotoForensics.GpsScore | deliverables/pipeline_code/services/photo_forensics.py:68-73 | 1.0 iff distance ≤ threshold (inclusive), 0.0 iff above |
| PhotoForensics.GpsCheck | deliverables/pipeline_code/services/photo_forensics.py:40-75 | a missing photo returns a three-value (0.0, 0.0, 0.0) result; otherwise four values with the threshold score, the simulated offset position and the capture time |
| PhotoForensics.DefaultThresholdPasses | deliverables/pipeline_code/services/photo_forensics.py:60-73 | with the default 100 m threshold the simulated 15 m deviation always scores 1.0 |
| PhotoForensics.GpsCheckFixed | deliverables/pipeline_code/services/photo_forensics.py:54-55 | the corrected missing-photo path returns four values with score 0.0 and agrees with `gps_check` whenever the photo exists |
| PhotoForensics.ShadowScore | deliverables/pipeline_code/services/photo_forensics.py:116-124 | 1.0 iff difference < 10, 0.7 iff 10 ≤ difference < 30, 0.2 iff ≥ 30 (strict bounds) |
| PhotoForensics.ShadowScoreAntitone | deliverables/pipeline_code/services/photo_forensics.py:114-124 | a larger angle difference never scores higher |
| PhotoForensics.ExpectedSun | deliverables/pipeline_code/services/photo_forensics.py:88-101 | the solar position is known iff the capture time parses and the ephemeris succeeds |
| PhotoForensics.ShadowAnalysisCheck | deliverables/pipeline_code/services/photo_forensics.py:78-132 | ephemeris failure scores 0.0 before any photo is read; a missing photo then raises; otherwise the result carries the expected azimuth and elevation, the detected angle is azimuth + noise and the score is ShadowScore(\|noise\|) |
| PhotoForensics.SimulatedNoiseAlwaysPasses | deliverables/pipeline_code/services/photo_forensics.py:111-118 | simulated noise in [−5, 5] always scores 1.0 |
| Text.Strip | backend/services/equipment_check.py:65 | the result is the slice of the text between a whitespace-only prefix and a whitespace-only suffix, and it neither starts nor ends with whitespace |
| Text.StripUnique | backend/services/equipment_check.py:65 | exactly one string is such a slice: any string satisfying that description is the stripped text |
| Text.StripIdempotent | backend/services/equipment_check.py:65 | stripping a stripped text changes nothing |
| Text.Upper | backend/services/equipment_check.py:65 | upper-casing maps each character in place |
| EquipmentCheck.CleanChars | backend/services/equipment_check.py:65 | each character is mapped in place, with 'O'→'0' and 'I'→'1' |
| EquipmentCheck.CleanSerial | backend/services/equipment_check.py:65 | a cleaned serial is the character cleaning of the text stripped of surrounding whitespace; it contains no 'O' and no 'I' and is no longer than the text |
| EquipmentCheck.CleanedCandidates | backend/services/equipment_check.py:64-67 | x is produced iff some OCR text with a digit and raw length > 5 cleans to x |
| EquipmentCheck.Distinct | backend/services/equipment_check.py:69 | deduplication keeps exactly the same members with no repeats |
| EquipmentCheck.ExtractSerials | backend/services/equipment_check.py:42-73 | reader, decode and OCR failures give their one-sentinel lists; otherwise a duplicate-free list of exactly the cleaned candidates |
| EquipmentCheck.RegisteredSerials | backend/services/equipment_check.py:80-84 | verified serials are the order-preserving registry filter of the detected ones: a subsequence, all and only the registered ones |
| EquipmentCheck.CheckAlmmList | backend/services/equipment_check.py:76-99 | empty → 0.1; all registered → 1.0; some → 0.7; none of a non-empty list → 0.0 |
| EquipmentCheck.VerifyAgainst | backend/services/equipment_check.py:102-123 | missing photo → 0.0 with empty lists; otherwise the registry check's score and details with the detected and verified lists |
| EquipmentCheck.EquipmentVerification | backend/services/equipment_check.py:102-123 | the result is valid, verified serials are a subsequence of detected ones and all in the registry |
| EquipmentCheck.OcrFailureScoresZero | backend/services/equipment_check.py:42-73 | reader, decode or OCR failure scores 0.0 (not 0.1): the sentinels are not registry keys |
| EquipmentCheck.SingleCandidateExtracted | backend/services/equipment_check.py:64-69 | one qualifying text yields exactly its cleaned form |
| EquipmentCheck.SingleRegisteredScoresOne | backend/services/equipment_check.py:89-91 | a single registered serial scores 1.0 |
| EquipmentCheck.NoneRegisteredScoresZero | backend/services/equipment_check.py:95-97 | a non-empty list with no registered serial scores 0.0 |
| EquipmentCheck.RegistrySerialsAreCandidates | backend/services/equipment_check.py:35-66 | every registry key passes the digit-and-length filter |
| EquipmentCheck.CleanedSerialNeverRegistered | backend/services/equipment_check.py:35-65 | no cleaned text equals a registry key, since every key contains 'I' |
| EquipmentCheck.OcrPathNeverVerifies | backend/services/equipment_check.py:35-99 | as written, no serial is ever verified and the score is only ever 0.0 or 0.1 |
| EquipmentCheck.RegisteredSerialRejectedAsWritten | backend/services/equipment_check.py:64-97 | a photo showing exactly a registered serial scores 0.0 as written |
| EquipmentCheck.NormalisedRegistry | backend/services/equipment_check.py:35-39 | the corrected registry holds the cleaned form of every key |
| EquipmentCheck.EquipmentVerificationNormalised | backend/services/equipment_check.py:102-123 | the corrected check has the same shape, verifying against the cleaned registry |
| EquipmentCheck.RegisteredSerialVerifiesWhenNormalised | backend/services/equipment_check.py:64-91 | with the corrected registry, a photo showing a registered serial scores 1.0 |
| Orchestrator.RunChecks | backend/services/ml_pipeline.py:82-94 | a three-value GPS return fails the unpacking; the checks succeed iff GPS returned four values and the shadow, satellite and energy steps all return, with a shadow failure raised first; the results are the GPS metric, the shadow, satellite, equipment and energy results, and are valid whenever the GPS metric is |
| Orchestrator.Equipment | backend/services/ml_pipeline.py:91 | a missing serial photo scores 0.0 with no serials; otherwise the equipment check of the photo's OCR reading; verified serials are registry keys |
| Orchestrator.GpsStep | backend/services/ml_pipeline.py:82 | the GPS step returns three values iff the wide photo is missing |
| Orchestrator.GpsStepFixed | backend/services/ml_pipeline.py:82 | the corrected GPS step always returns four values and equals the original when the photo exists |
| Orchestrator.NotificationFor | backend/services/ml_pipeline.py:154-159 | the push data carries exactly the app id and the final status |
| Orchestrator.Finish | backend/services/ml_pipeline.py:99-159 | one final write of the decided status with a valid report (confidence within 0.00005, decision label) and the energy, then the notification of that same status |
| Orchestrator.Run | backend/services/ml_pipeline.py:64-159 | "verifying" is written first; a run is cut off after that write exactly when checks or report raise; otherwise exactly one final write with a terminal status and a valid report, then the notification carrying that status |
| Orchestrator.RunPipeline | backend/services/ml_pipeline.py:56-159 | as written, a missing wide photo or any failed check makes the run raise after "verifying"; when every check succeeds under non-negative weights, the run ends in a final write of the terminal status decided on the confidence, with the energy estimate |
| Orchestrator.RunPipelineFixed | backend/services/ml_pipeline.py:56-159 | with the corrected GPS step, runs whose photo exists are unchanged |
| Orchestrator.Apply | backend/services/ml_pipeline.py:140-143 | an update touches only the one document's status, report and energy; others are unchanged; a missing id is left missing |
| Orchestrator.ApplyAllKeepsApplicant | backend/services/ml_pipeline.py:134-143 | a run's writes never change the applicant or the declared panel count |
| Orchestrator.ShapedPrefixConsistent | backend/services/ml_pipeline.py:64-143 | from a fresh document, after every prefix of a run's writes, a report is present iff the status is final |
| Orchestrator.RunKeepsReportWithFinalStatus | backend/services/ml_pipeline.py:64-143 | the same for the writes of an actual run |
| Orchestrator.RaisedRunStrandsDocument | backend/services/ml_pipeline.py:64-68 | a run that raises leaves the document in "verifying" with no report, as nothing handles the error |
| Orchestrator.CompletedRunStoresDecision | backend/services/ml_pipeline.py:134-159 | a completed run stores a terminal status with its report, and the notification names the stored status |
| Orchestrator.RerunReopensFinishedDocument | backend/services/ml_pipeline.py:64-68 | re-running on a finished document writes "verifying" over it while the old report stays, breaking consistency |
| Orchestrator.LastFinalWriteWins | backend/services/ml_pipeline.py:140-143 | two unconditional final writes: the second overwrites the first entirely |
| Orchestrator.MissingPhotoStrandsRun | backend/services/ml_pipeline.py:82 | as written, a missing wide photo leaves the application in "verifying" for good |
| Orchestrator.MissingPhotoCompletesWhenFixed | backend/services/ml_pipeline.py:82 | with the corrected GPS step, the same run completes |
| Storage.LastIndexOf | deliverables/pipeline_code/services/storage.py:32 | None iff the character is absent; otherwise its last occurrence |
| Storage.BaseName | deliverables/pipeline_code/services/storage.py:32 | the final path component: a slash-free tail of the path that follows a '/' or is the whole path |
| Storage.Suffix | deliverables/pipeline_code/services/storage.py:32 | `Path.suffix`: empty iff the name has no dot after its first character or ends in a dot; otherwise the last dot-segment of the final component |
| Storage.Extension | deliverables/pipeline_code/services/storage.py:32 | a missing or empty filename gives ".jpg"; every extension is empty or starts with '.' |
| Storage.FileKey | deliverables/pipeline_code/services/storage.py:33 | the key is user id, '-', file type, then the extension |
| Storage.StoragePath | deliverables/pipeline_code/services/storage.py:12-17 | the path is base/user/key, and its final component is the key |
| Storage.WriteFiles | deliverables/pipeline_code/services/storage.py:39-45 | writing adds exactly the written paths and leaves every other file unchanged |
| Storage.KeyMap | deliverables/pipeline_code/services/storage.py:45 | the key map has one entry per file type, mapping each (distinct) type to its path |
| Storage.SaveUploadedFiles | deliverables/pipeline_code/services/storage.py:20-51 | succeeds iff every path is writable; then one entry per file type holding its full path; on failure, the error names the first unwritable type and only earlier files are on disk; other files are untouched |
| Storage.GetFileContent | deliverables/pipeline_code/services/storage.py:54-64 | reading succeeds iff the path is stored; otherwise "File not found: " + path |
| Storage.WrittenFilesKeepContents | deliverables/pipeline_code/services/storage.py:39-45 | with distinct paths, every written path holds its own upload's bytes |
| Storage.SavedFilesReadBack | deliverables/pipeline_code/services/storage.py:20-64 | after a successful save, reading a type's returned key gives back that upload's bytes |
| Storage.PhotoParts | backend/api/endpoints/applications.py:68-72 | the three photo parts are wide_rooftop, serial_number and inverter, in that order |
| Storage.PhotoPathsDistinct | deliverables/pipeline_code/services/storage.py:33 | the three photos of one user land on three different paths |
| Storage.SavePhotos | backend/api/endpoints/applications.py:64-73 | the photo save succeeds iff all three paths are writable; its keys are the three types, each reading back its own photo |
| Storage.ResubmissionReusesPaths | deliverables/pipeline_code/services/storage.py:28-33 | the key has no application id: the same user, type and extension reuse the path, so a later submission overwrites earlier photos |
| Endpoints.ParseObjectId | backend/api/endpoints/verifications.py:33-36 | an id parses iff it is 24 hex digits; the canonical form is its lower-case spelling |
| Endpoints.CanonicalIdParsesToItself | backend/api/endpoints/verifications.py:34 | a stored (canonical) id parses to itself |
| Endpoints.FindOwned | backend/api/endpoints/verifications.py:39-41 | a document is found iff it exists and belongs to the caller |
| Endpoints.LookupOwned | backend/api/endpoints/verifications.py:33-44 | bad id → 400 before any lookup; unknown or someone else's → 404; otherwise the caller's document |
| Endpoints.Revalidate | backend/api/endpoints/verifications.py:47 | re-reading a stored document fails (500) iff it violates the model's constraints |
| Endpoints.GetApplicationDetails | backend/api/endpoints/applications.py:128-142 | 400 for a bad id; Ok iff the id is well-formed, the document is the caller's and valid; the document is returned unchanged |
| Endpoints.GetVerificationReport | backend/api/endpoints/verifications.py:33-64 | 400, then 404 not found; 409 with the status iff in progress ("initial_application" or "verifying"); 404 report-missing iff finished without a report; otherwise the stored report |
| Endpoints.ServedReportMatchesDetails | backend/api/endpoints/verifications.py:47-64 | a served report is the one in the details response, whose status is not in progress |
| Endpoints.FinishedDocumentIsServed | backend/api/endpoints/verifications.py:50-64 | the owner of a consistent, finished document gets its report |
| Endpoints.OtherUsersGetNotFound | backend/api/endpoints/verifications.py:39-44 | any other user gets 404 on both endpoints |
| Endpoints.SubmittedDocument | backend/api/endpoints/applications.py:82-96 | the initial document is "submitted" with no report, the caller's id, the form's panel count and the saved photo keys; valid and consistent |
| Endpoints.InsertAndSchedule | backend/api/endpoints/applications.py:98-112 | a failed save → 500 with no insert; otherwise the document is inserted under the new id and the pipeline is scheduled with that id and document; the response returns the id |
| Endpoints.SubmitApplication | backend/api/endpoints/applications.py:49-112 | invalid panel count → 400 with nothing saved or inserted; unwritable photo → 500 with no insert; success iff valid form, writable photos and a fresh id, then a submitted, report-less, valid document and a scheduled run |
| Endpoints.SubmissionAddsOneDocument | backend/api/endpoints/applications.py:98-99 | a successful submission adds exactly one document; existing ones are unchanged |
| Endpoints.SubmittedPhotosReadBack | backend/api/endpoints/applications.py:64-96 | each photo key stored in the new document reads back that photo's bytes |
| Endpoints.FreshSubmissionReportIsMissing | backend/api/endpoints/verifications.py:57-62 | right after submission the report endpoint answers 404 report-missing (not 409), while details succeed |
| Endpoints.StrandedRunAnswersConflict | backend/api/endpoints/verifications.py:50-54 | after a run that raised, the report endpoint answers 409 "verifying" |
| Endpoints.CompletedRunIsServed | backend/api/endpoints/verifications.py:50-64 | after a completed run the owner is served exactly the report that run wrote |
| BatchPipeline.FillDefaults | deliverables/pipeline_code/main_pipeline.py:107-112 | a missing panel-count column defaults to 10, a missing date column to now; other values as read |
| BatchPipeline.OptionalColumnsDefault | deliverables/pipeline_code/main_pipeline.py:107-112 | a table with only the required columns processes rows with 10 panels and today's date |
| BatchPipeline.FallbackRecord | deliverables/pipeline_code/main_pipeline.py:65-79 | the fallback has no solar, confidence 0.0, NOT_VERIFIABLE, area 0, buffer 0 and the failure text |
| BatchPipeline.MapResultAsWritten | deliverables/pipeline_code/main_pipeline.py:46-62 | the mapping raises AttributeError exactly at the first attribute the result model does not declare |
| BatchPipeline.Verify | deliverables/pipeline_code/main_pipeline.py:36-42 | as shipped, an unparsable date raises with no fetch; a parsable one gives a NOT_VERIFIABLE result after the single pre-install fetch |
| BatchPipeline.VerifyFixed | deliverables/pipeline_code/main_pipeline.py:36-42 | with the secret read correctly and non-empty credentials, the row's verification is the imagery-driven one; an unparsable date raises with no fetch |
| BatchPipeline.RecordAsWritten | deliverables/pipeline_code/main_pipeline.py:34-79 | a record always echoes the sample; a raised verification gives the fallback; confidence is 0.0 unless mapped |
| BatchPipeline.ProcessSample | deliverables/pipeline_code/main_pipeline.py:22-79 | a record always echoes the sample; a raised verification gives the fallback; confidence is 0.0 unless mapped |
| BatchPipeline.RecordAsWrittenFallsBack | deliverables/pipeline_code/main_pipeline.py:46-79 | under the mapping as written every run yields the fallback, with the final_buffer_sqft AttributeError after a successful verification |
| BatchPipeline.MappingReadsUndeclaredFields | deliverables/pipeline_code/main_pipeline.py:54-56 | final_buffer_sqft, read fourth, is the first undeclared attribute; artifact_filename is undeclared too |
| BatchPipeline.ProcessSampleAlwaysFallsBack | deliverables/pipeline_code/main_pipeline.py:34-79 | as written, every sample yields the fallback record; a sample with a parsable date falls back with the final_buffer_sqft AttributeError |
| BatchPipeline.MapResult | deliverables/pipeline_code/main_pipeline.py:46-62 | has_solar iff post count > 0; confidence is the score; area and YOLO confidence rounded to within 0.005 and 0.00005; counts, QC, metadata and details echoed |
| BatchPipeline.RecordFixed | deliverables/pipeline_code/main_pipeline.py:46-79 | with the buffer taken from the last fetch attempted, a record is mapped iff the verification succeeded (has_solar, confidence and QC from the result), else the fallback |
| BatchPipeline.ProcessSampleFixed | deliverables/pipeline_code/main_pipeline.py:22-79 | with the session and the mapping corrected, a record is mapped iff the verification succeeded, else the fallback |
| BatchPipeline.FixedRecordsWellFormed | deliverables/pipeline_code/main_pipeline.py:46-62 | every corrected record has confidence in [0,1], one of the two QC names, a buffer of 1200 or 2400, and 1200 whenever VERIFIABLE |
| BatchPipeline.FixAgreesOnFailures | deliverables/pipeline_code/main_pipeline.py:65-79 | on the same run, the corrected and original mappings give the same record iff the verification raised |
| BatchPipeline.MainPipeline | deliverables/pipeline_code/main_pipeline.py:102-128 | no output iff a required column is missing; otherwise one record per row in order, each processed with the defaults of the first clock reading; total_samples equals the row count; the run time is the second clock reading |

## Left out

- Floating point: reals are exact. Python `round` is exact half-even rounding on reals. A `{:.2f}` or `str(float)` in a details text is approximated by a two-decimal rendering.
- ML and vision inference: YOLO loading and inference, EasyOCR, OpenCV decode/encode and PIL EXIF decoding. Their outputs are parameters (`YoloRun`, `OcrReading`, `ExifParse`).
- `datetime.fromisoformat`, `datetime.now`, pvlib's solar ephemeris and `np.random.uniform`: a parser, a clock value, an ephemeris function and a noise value passed in.
- Sentinel Hub authentication, evalscript and HTTP request: the response is a parameter, and a failed authentication is a service that raises on every request. Only the session's credential reads and the empty-credential check are modelled. The degree/radius trigonometry of `get_bbox_from_point` is floating-point geometry. Only its buffer-size choice is modelled, and the bounding-box extent enters `ImageSize` as a value.
- `calculate_expected_energy` (the PVWatts call) is a parameter of the run. It catches every `Exception` and then returns a prediction with no annual figure, so that case is a `Success`; a `Failure` of the parameter stands only for a `BaseException`, such as a cancellation, escaping it.
- The Expo push client: the notification is an effect in the run, and sending it is not modelled.
- Concurrency: `BackgroundTasks` and `asyncio.gather` are modelled as sequential calls in the order the code awaits them.
- Authentication (`get_current_user`, JWT and passwords): the caller's user id is a parameter.
- Mongo and FastAPI wiring: the collection is a map from id to document, and a new id is a parameter.
- CSV and JSON file reading and writing, directory creation, and the run time stamp, which is a parameter.
- The backend's own `services/photo_forensics.py` and `services/storage.py` are not part of this model. The batch-pipeline versions of both are modelled and stand in for them.
- The backend's own `core/config.py`, which `backend/services/ml_pipeline.py` imports for its thresholds and weights, is not part of this model. The batch pipeline's `Settings` values (deliverables/pipeline_code/core/config.py:25-32) stand in for it in `Config.Defaults`, and so in every lemma that speaks of the shipped settings: `DecisionEngine.AnyFailedCheckBlocksApproval`, `DecisionEngine.RoundedScoreCanDisagreeWithDecision` and the `DecisionEngine.Scenario…` lemmas.
- Python's `str.upper` and `isdigit` are modelled on ASCII letters and digits only. `strip` uses the full `str.isspace` set.
- `list(set(...))` order is unspecified in Python. The model keeps first occurrences in order, and its contracts speak only of membership and absence of duplicates.
- `Path` normalisation of repeated or trailing slashes, in the storage base directory and in the uploaded file name: `Path("a.jpg/").suffix` is ".jpg", while `Storage.Suffix` of that name is "".
- Endpoints.ParseObjectId: does not model `bytes.fromhex` accepting whitespace between digit pairs. Only 24-hex-digit strings are accepted.
- Endpoints.SubmitApplication: the 400 detail carries the failing field name instead of Pydantic's full error text.
- Unhandled exceptions in an endpoint are modelled as a 500 "Internal Server Error" response. Examples are a non-conforming stored document and a duplicate id.
- `backend/models/__init__.py`, user models, security and configuration credentials: none of them takes part in scoring or decisions.

## Findings

| source | as written | input that shows it | evidently intended | confidence | as-written member | corrected member |
|---|---|---|---|---|---|---|
| backend/services/equipment_check.py:35-39 | registry keys "SERIAL-123456" and "SERIAL-987654" contain 'I', but every OCR text is cleaned with 'I'→'1' before lookup | a serial photo whose OCR text is exactly "SERIAL-123456" is cleaned to "SER1AL-123456" and scores 0.0 | a registered serial shown in the photo verifies and scores 1.0 | not executed | EquipmentCheck.RegisteredSerialRejectedAsWritten | EquipmentCheck.RegisteredSerialVerifiesWhenNormalised |
| deliverables/pipeline_code/services/photo_forensics.py:54-55 | on a missing photo `gps_check` returns three values, but `run_verification_pipeline` unpacks four (backend/services/ml_pipeline.py:82); the three-value return was read in the batch pipeline's copy of `photo_forensics.py`, which stands in for the backend's own module imported at backend/services/ml_pipeline.py:8 | an application whose wide rooftop photo is absent from storage: the run raises after writing "verifying" and the report endpoint answers 409 forever | the missing-photo path returns a fourth value, scores GPS 0.0 and the run completes | not executed | Orchestrator.MissingPhotoStrandsRun | Orchestrator.MissingPhotoCompletesWhenFixed |
| deliverables/pipeline_code/main_pipeline.py:54-56 | the record mapping reads `final_buffer_sqft` and `artifact_filename`, which `SatelliteAnalysisResult` does not declare (deliverables/pipeline_code/models/application.py:19-31) | any sample whose verification succeeds: the mapping raises AttributeError and the fallback record with confidence 0.0 is written | the mapped record with has_solar, confidence and the buffer actually used | not executed | BatchPipeline.RecordAsWrittenFallsBack | BatchPipeline.RecordFixed |
| deliverables/pipeline_code/services/satellite_analysis.py:47 | `get_sh_session` reads `settings.SENTEL_HUB_CLIENT_SECRET`, but the settings declare only `SENTINEL_HUB_CLIENT_SECRET` (deliverables/pipeline_code/core/config.py:18); the AttributeError is raised inside `fetch_sh_image`'s `try` (:144-145) and caught (:186-189), and `lru_cache` does not keep failures | any sample with a parsable date, whatever the credentials: the pre-install fetch returns (None, {}), so every verification is the 0.0 NOT_VERIFIABLE pre-fetch result after one fetch | the secret read under its declared name, so that the imagery answers decide the verification | not executed | PipelineSatellite.MisspeltSecretNeverVerifies | PipelineSatellite.DefaultCredentialsReachImagery |
