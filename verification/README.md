# SmartSpectra iOS SDK: a verified model of its Swift core

A Dafny model of the Swift logic of the SmartSpectra iOS SDK. Signal processing happens in a closed native framework, so what remains in Swift is a set of small rules. This model covers them:

- **Processing repository** (`processing_repository.dfy`). The retrieve-data call turns the JSON object returned by the server into sorted time series, value/confidence pairs and strict (mean) rates, and chooses between "poll again", success and failure. The upload calls (pre-signed URLs, chunk upload, completion body) are modelled too.
- **Network layer** (`network.dfy`, `network_errors.dfy`). The service object that reads the registered API key once when it is created, request headers, the guard chains classifying a data-task reply (2xx success class, section 15.3 of RFC 9110; the ETag field, section 8.8.3 of RFC 9110), and the error messages.
- **Live plot** (`screening_plot.dfy`). The time-keyed splice `mergeAndReplace` that merges new trace points into the plotted ones, and the view's reset and update handlers.
- **Screening controller, current generation** (`screening_controller.dfy`):
  - the record button's four-state machine with its countdown timers;
  - the processing status and its observer;
  - the native core's callbacks;
  - the ten-delta frame-rate window;
  - facemesh unflattening.
- **Screening controller, earlier generation** (`legacy_screening.dfy`). A three-state button, error-code hints, an absorbing zero counter, and the `setting` merge of the JSON handed over by the core.
- **Configuration** (`config.dfy`). The 20–120 s clamp of `spotDuration`.
- **API key** (`api_keys.dfy`). The process-wide key registry and the SDK initializer that validates and registers the key.
- **Onboarding** (`onboarding.dfy`, `walkthrough.dfy`). The first-use chain walkthrough → terms → privacy → screening, the tutorial pager, and the walkthrough overlay's cursor.

Shared pieces:

- `wrappers.dfy` holds `Option`, `Result`, `Guarded` and `Completion`:
  - `Guarded` marks a `fatalError`, forced cast or out-of-range index as the outcome `Traps`.
  - `Completion` marks a completion handler that is `NeverCalled`.
- `json.dfy` holds JSON values and the `as?` casts.
- `numeric.dfy` holds Swift's `Int(Double)`, `int16Value`, `rounded()` and `reduce(0, +)`.

Conventions of the model:

- Objects whose fields the source updates are classes with those fields.
- A block sent to the main queue from code already running there is applied when that code has finished (the countdown title is read after the decrement); other hops to the main queue are applied at once.
- A `didSet` observer runs inside the assignment it observes.
- What a controller asks of the native core, the navigation stack or the screen is appended to an `effects` log.
- Timer firings, clock readings, connectivity probes, network replies, JSON parsing and protobuf decoding are inputs.

## Model

| member | source | states |
|---|---|---|
| Numeric.TruncateToInt | Sources/SmartSpectraIosSDK/Screening/Controller/ViewController.Screening.Root.swift:156-160 | `Int(counter)` keeps the integer part: for x ≥ 0 the result r satisfies r ≤ x < r + 1; for x < 0 it satisfies r − 1 < x ≤ r (truncation toward zero). |
| Numeric.Int16Value | Sources/SmartSpectraIosSDK/Screening/Controller/ViewController.Screening.Root+PresageDelegate.swift:93 | `int16Value` gives a value in [−32768, 32767] that is congruent to the input modulo 2^16, and it is the identity on that range. |
| Numeric.RoundedHalfAway | Sources/SmartSpectraIosSDK/Screening/Controller/ScreeningPlotView.swift:108-109 | `.rounded()` lands within 0.5 of its argument, and a halfway case goes away from zero. |
| Numeric.MeanBounded | Sources/SmartSpectraIosSDK/Classes/Network/Repositories/Processing/Service.Repository.Processing.swift:163-171 | An average of values that all lie in [lo, hi] also lies in [lo, hi]. |
| Numeric.SumOfPermutation | Sources/SmartSpectraIosSDK/Classes/Network/Repositories/Processing/Service.Repository.Processing.swift:121 | `reduce(0, +)` gives the same sum for any ordering of the same values. |
| NetworkErrors.Describe | Sources/SmartSpectraIosSDK/Classes/Network/Network/Errors/Service.Network.Errors.swift:51-66 | A transport error's message is "Network Error: " followed by the underlying description, exactly. A status-code message starts with "Status Code Error: ". |
| NetworkErrors.IntRoundTrip | Sources/SmartSpectraIosSDK/Classes/Network/Network/Errors/Service.Network.Errors.swift:57-58 | The decimal text interpolated for a status code reads back as the same integer, negative codes included. |
| NetworkErrors.StatusCodeMessageCarriesCode | Sources/SmartSpectraIosSDK/Classes/Network/Network/Errors/Service.Network.Errors.swift:57-58 | The message of `statusCode(n)` is the prefix followed by n in decimal: n can be recovered from it. |
| NetworkErrors.DescribeInjective | Sources/SmartSpectraIosSDK/Classes/Network/Network/Errors/Service.Network.Errors.swift:51-66 | Two errors with the same message are the same error. So the six cases, including the fixed strings of `invalidResponse`, `emptyData`, `noNetworkConnection` and `AuthError`, have pairwise different messages. |
| Network.BuildDataRequest | Sources/SmartSpectraIosSDK/Classes/Network/Network/Core/Service.Network.swift:35-44 | GET/POST requests carry the enum's raw method and the body. `createHeaders` replaces the whole header dictionary, so the only header left is `x-api-key`. |
| Network.BuildPutRequest | Sources/SmartSpectraIosSDK/Classes/Network/Network/Core/Service.Network.swift:88-91 | An upload request has method, body and an unbounded timeout, and no header at all. |
| Network.ClassifyDataReply | Sources/SmartSpectraIosSDK/Classes/Network/Network/Core/Service.Network.swift:46-73 | Checks run in order: transport error → `networkError`, no HTTP response → `invalidResponse`, non-2xx → `statusCode(code)`, no body → `emptyData`; a 2xx HTTP reply without data is exactly the `emptyData` case. Success holds exactly for a 2xx HTTP response with a body, and returns that body unchanged. `AuthError` is never produced. |
| Network.ClassifyPutReply | Sources/SmartSpectraIosSDK/Classes/Network/Network/Core/Service.Network.swift:93-116 | Same order, but only status 200 is accepted, and a 200 reply without data fails with `emptyData`. The process stops exactly when a 200 reply with a body has no `Etag` header. On success the result is the `Etag` value. |
| Network.NetworkService.PerformRequest | Sources/SmartSpectraIosSDK/Classes/Network/Network/Core/Service.Network.swift:27-78 | Without connectivity the result is `noNetworkConnection` and nothing is sent. Otherwise the sent request holds only the `x-api-key` header with the key the service was created with, the method and the body, and the result is the classification of the reply. |
| Network.NetworkService.PerformPut | Sources/SmartSpectraIosSDK/Classes/Network/Network/Core/Service.Network.swift:81-121 | Same connectivity gate; otherwise a header-less request with the body is sent, and the result is the upload classification. |
| Network.NetworkService.Create | Sources/SmartSpectraIosSDK/Classes/Network/Network/Core/Service.Network.swift:16 | Creating the service reads the registered key once: it traps exactly when no key has been set, and otherwise the service holds the current key. |
| Network.KeyFrozenAtCreation | Sources/SmartSpectraIosSDK/Classes/Network/Network/Core/Service.Network.swift:16 | A key set after the service was created does not reach its requests: they still carry the key registered at creation. |
| Network.ForbiddenIsStatusCode | Sources/SmartSpectraIosSDK/Classes/Network/Network/Core/Service.Network.swift:57-65 | A 403 reply fails the 2xx guard first, so it is reported as `statusCode(403)`, never as `AuthError`. |
| Network.UploadRejectsOther2xx | Sources/SmartSpectraIosSDK/Classes/Network/Network/Core/Service.Network.swift:104-108 | 201 and 204 are `statusCode` failures of an upload, while a data request with a body accepts them. |
| ProcessingRepository.SortBy | Sources/SmartSpectraIosSDK/Classes/Network/Repositories/Processing/Service.Repository.Processing.swift:123-134 | `sorted(by:)` on time gives an ascending sequence that is a permutation (same multiset) of its input. |
| ProcessingRepository.Series | Sources/SmartSpectraIosSDK/Classes/Network/Repositories/Processing/Service.Repository.Processing.swift:123-147 | A series holds exactly the samples of the entries whose key parses as a time and that carry a `value`, each sample as often as entries give it. It is sorted ascending by time and no longer than the table. |
| ProcessingRepository.ScoredSeries | Sources/SmartSpectraIosSDK/Classes/Network/Repositories/Processing/Service.Repository.Processing.swift:149-161 | The entries with confidence are exactly those with a time key, a `value` and a `confidence`, each as often as entries give it, ascending by time. |
| ProcessingRepository.ValuesAndConfidencesAligned | Sources/SmartSpectraIosSDK/Classes/Network/Repositories/Processing/Service.Repository.Processing.swift:149-161 | Values and confidences mapped from one sorted list have equal length and identical times at every index, and both are sorted. |
| ProcessingRepository.RateValues | Sources/SmartSpectraIosSDK/Classes/Network/Repositories/Processing/Service.Repository.Processing.swift:121 | The rate values are every numeric `value` field of the rate table, whatever the entry's key (keys are not parsed), each as often as it occurs, and nothing else. |
| ProcessingRepository.StrictRate | Sources/SmartSpectraIosSDK/Classes/Network/Repositories/Processing/Service.Repository.Processing.swift:163-171 | A strict rate exists exactly when there is at least one value, and then it is their mean (value × count = sum). |
| ProcessingRepository.StrictRateBounded | Sources/SmartSpectraIosSDK/Classes/Network/Repositories/Processing/Service.Repository.Processing.swift:163-171 | A strict rate lies within the range of the values it averages. |
| ProcessingRepository.StrictRateOrderFree | Sources/SmartSpectraIosSDK/Classes/Network/Repositories/Processing/Service.Repository.Processing.swift:281-289 | Two rate tables with the same entries in any order (a reordered dictionary) give the same strict rate. |
| ProcessingRepository.StrictRateOfPermutation | Sources/SmartSpectraIosSDK/Classes/Network/Repositories/Processing/Service.Repository.Processing.swift:163-171 | The strict rate of a list of values depends only on the values and their counts, not on their order. |
| ProcessingRepository.CompactMap | Sources/SmartSpectraIosSDK/Classes/Network/Repositories/Processing/Service.Repository.Processing.swift:121 | `compactMap` keeps each result the transform gives, as often as it gives it, and nothing else; the result is no longer than the input. |
| ProcessingRepository.OccurrencesAppend | Sources/SmartSpectraIosSDK/Classes/Network/Repositories/Processing/Service.Repository.Processing.swift:121 | The count of a result over two concatenated lists is the sum of the counts. |
| ProcessingRepository.OccurrencesOrderFree | Sources/SmartSpectraIosSDK/Classes/Network/Repositories/Processing/Service.Repository.Processing.swift:121 | Reordering the input does not change how often the transform gives any result. |
| ProcessingRepository.CompactMapOrderFree | Sources/SmartSpectraIosSDK/Classes/Network/Repositories/Processing/Service.Repository.Processing.swift:121 | `compactMap` over a reordered input yields the same results with the same counts. |
| ProcessingRepository.SplitScored | Sources/SmartSpectraIosSDK/Classes/Network/Repositories/Processing/Service.Repository.Processing.swift:149-161 | `hrValues`/`hrConfidence` (and the `rr` pair) are written together from the same entries: the values and the confidences of each entry in order, with equal lengths and equal times, both sorted. |
| ProcessingRepository.Extract | Sources/SmartSpectraIosSDK/Classes/Network/Repositories/Processing/Service.Repository.Processing.swift:107-302 | The published record keeps the raw object and takes `userID`, `upload_date` and `version` from their strings. Each series field is the series of its own key in its own section (`pulse`, `breath` or `pressure`) and is time-sorted; both value/confidence pairs are the split of the `hr` (resp. `rr`) table and are aligned; each strict rate is the strict rate of every numeric value in `pulse.hr` (resp. `breath.rr`), absent exactly when that sub-dictionary is. |
| ProcessingRepository.RetrieveData | Sources/SmartSpectraIosSDK/Classes/Network/Repositories/Processing/Service.Repository.Processing.swift:80-333 | A bad route, an encode failure or a released owner never calls the completion. Network failures pass through. An empty body gives `success(nil)`; a body that does not parse or is not an object gives `emptyData`. Metrics are published exactly for an object. A missing `id` gives `emptyData`; otherwise `hr` = `rr` = 0.0 and the strict rates are those published, or 0.0. |
| ProcessingRepository.GenerateUploadUrls | Sources/SmartSpectraIosSDK/Classes/Network/Repositories/Processing/Service.Repository.Processing.swift:31-62 | A bad route or an encode failure never completes. A network error is passed through, and a success body is decoded into the response model or a decoding error. |
| ProcessingRepository.MultiPartUpload | Sources/SmartSpectraIosSDK/Classes/Network/Repositories/Processing/Service.Repository.Processing.swift:65-78 | An invalid chunk URL never completes. Otherwise the upload's ETag or error is passed on, and a missing ETag stops the process. |
| ProcessingRepository.CompleteDataUpload | Sources/SmartSpectraIosSDK/Classes/Network/Repositories/Processing/Service.Repository.Processing.swift:335-362 | The posted object has exactly the three keys `id`, `upload_id` and `parts`. `parts` holds the given part objects in order. Any successful POST reports `true`, whatever `num` and `UrlsCount` are. |
| ScreeningPlot.FirstIndexAtOrAfter | Sources/SmartSpectraIosSDK/Screening/Controller/ScreeningPlotView.swift:161 | `firstIndex(where: time ≥ t)`: no result iff every time is < t; otherwise the index holds a time ≥ t and every earlier time is < t. |
| ScreeningPlot.Merged | Sources/SmartSpectraIosSDK/Screening/Controller/ScreeningPlotView.swift:157-177 | Empty new traces leave `existing` unchanged. Otherwise the result is `existing[..k] + newTraces`, where k is the first index whose time is ≥ the first new time, or the whole of `existing` when there is none. |
| ScreeningPlot.MergeAndReplace | Sources/SmartSpectraIosSDK/Screening/Controller/ScreeningPlotView.swift:157-177 | The in-place splice, including its append step, produces `Merged(existing, newTraces)`. |
| ScreeningPlot.AppendStepNeverFires | Sources/SmartSpectraIosSDK/Screening/Controller/ScreeningPlotView.swift:166-172 | After the replacement the last element is the last new point, so the "append remaining" condition is always false. |
| ScreeningPlot.MergedLength | Sources/SmartSpectraIosSDK/Screening/Controller/ScreeningPlotView.swift:163-175 | The result length is k + |new| when there is an overlap, and |existing| + |new| when there is none. |
| ScreeningPlot.MergedSorted | Sources/SmartSpectraIosSDK/Screening/Controller/ScreeningPlotView.swift:161-176 | Two time-ordered inputs merge into a time-ordered result. |
| ScreeningPlot.MergedShape | Sources/SmartSpectraIosSDK/Screening/Controller/ScreeningPlotView.swift:161-164 | The result ends with exactly the new points and starts with an unchanged prefix of `existing`. |
| ScreeningPlot.LastRounded | Sources/SmartSpectraIosSDK/Screening/Controller/ScreeningPlotView.swift:108-109 | The rate shown is 0 for an empty series. Otherwise it is an integer within 0.5 of the last value. |
| ScreeningPlot.PlotView.constructor | Sources/SmartSpectraIosSDK/Screening/Controller/ScreeningPlotView.swift:15-18 | Both traces start empty and both rates at 0. |
| ScreeningPlot.PlotView.OnAppear | Sources/SmartSpectraIosSDK/Screening/Controller/ScreeningPlotView.swift:111-118 | Appearing resets both traces to empty and both rates to 0. |
| ScreeningPlot.PlotView.UpdateTraces | Sources/SmartSpectraIosSDK/Screening/Controller/ScreeningPlotView.swift:152-185 | Both traces become the merge of old and new points, and time order is preserved. |
| ScreeningPlot.PlotView.OnReceive | Sources/SmartSpectraIosSDK/Screening/Controller/ScreeningPlotView.swift:105-110 | A nil or uninitialized buffer changes nothing. Otherwise the traces are merged with the new buffer, while the rates are the rounded last rate values of the buffer published before it (the property still holds the old value while subscribers run), or 0 when there was none. |
| ScreeningPlot.PublishTwice | Sources/SmartSpectraIosSDK/Screening/Controller/ScreeningPlotView.swift:105-110 | After two publications the displayed rates are those of the first buffer, one publication behind. |
| ScreeningController.Tick | Sources/SmartSpectraIosSDK/Screening/Controller/ViewController.Screening.Root+Methods.swift:273-288 | One timer firing: a live positive count in countdown state is decremented, and the title it shows is the decremented count, because the queued title block reads the captured variable after the closure returns. Otherwise the timer is invalidated, and the completion runs exactly when the state is still countdown. An invalidated timer does nothing. |
| ScreeningController.CountdownShowsEverySecond | Sources/SmartSpectraIosSDK/Screening/Controller/ViewController.Screening.Root+Methods.swift:273-282 | With delay N the button shows N (the state observer), then the first N firings show N−1, …, 0 and do not start recording. |
| ScreeningController.CountdownCompletesOnce | Sources/SmartSpectraIosSDK/Screening/Controller/ViewController.Screening.Root+Methods.swift:283-288 | The next firing runs the completion once and invalidates the timer. An invalidated timer never completes again. |
| ScreeningController.CancelledCountdownNeverCompletes | Sources/SmartSpectraIosSDK/Screening/Controller/ViewController.Screening.Root+Methods.swift:283-286 | While the button stays in a state other than countdown, no number of firings runs the completion or shows a title. |
| ScreeningController.StaleTimerStartsRecording | Sources/SmartSpectraIosSDK/Screening/Controller/ViewController.Screening.Root+Methods.swift:269-286 | A countdown cancelled and restarted leaves the first timer running; its firing, seeing the countdown state again, completes it and starts recording early. |
| ScreeningController.Unflatten | Sources/SmartSpectraIosSDK/Screening/Controller/ViewController.Screening.Root+PresageDelegate.swift:93 | An even-length list of 2n points becomes n pairs `(p[2i], p[2i+1])`, each narrowed to 16 bits. An odd length reads out of bounds and stops the process. |
| ScreeningController.UnflattenRoundTrip | Sources/SmartSpectraIosSDK/Screening/Controller/ViewController.Screening.Root+PresageDelegate.swift:93 | For points within 16 bits, flattening the pairs gives back the input. |
| ScreeningController.Window | Sources/SmartSpectraIosSDK/Screening/Controller/ViewController.Screening.Root+PresageDelegate.swift:108-111 | The window holds at most 10 deltas: the most recent ones, oldest first. |
| ScreeningController.WindowSlides | Sources/SmartSpectraIosSDK/Screening/Controller/ViewController.Screening.Root+PresageDelegate.swift:105-111 | Appending one delta, then removing the first when over the period, is the window of the extended history. |
| ScreeningController.WindowStep | Sources/SmartSpectraIosSDK/Screening/Controller/ViewController.Screening.Root+PresageDelegate.swift:105-111 | Sliding the stored window by one delta gives the same window as sliding the whole history, so the stored window never needs the history. |
| ScreeningController.Slide | Sources/SmartSpectraIosSDK/Screening/Controller/ViewController.Screening.Root+PresageDelegate.swift:108-111 | Appending a delta and removing the first when the count exceeds 10 yields the 10 most recent values of the extended window. |
| ScreeningController.ScreeningRoot.constructor | Sources/SmartSpectraIosSDK/Screening/Controller/ViewController.Screening.Root.swift:184-186 | Initial state: disabled button, idle status, not recording, `counter` = spotDuration (observer not run), last status `processingNotStarted`, empty FPS window. |
| ScreeningController.ScreeningRoot.ViewDidLoad | Sources/SmartSpectraIosSDK/Screening/Controller/ViewController.Screening.Root.swift:252-266 | The core is started for the configured duration. |
| ScreeningController.ScreeningRoot.StartRecording | Sources/SmartSpectraIosSDK/Screening/Controller/ViewController.Screening.Root+Methods.swift:238-242 | The core is signalled with recording = true; nothing else changes. |
| ScreeningController.ScreeningRoot.StopRecording | Sources/SmartSpectraIosSDK/Screening/Controller/ViewController.Screening.Root+Methods.swift:245-248 | The core is signalled with recording = false; nothing else changes. |
| ScreeningController.ScreeningRoot.MoveToProcessing | Sources/SmartSpectraIosSDK/Screening/Controller/ViewController.Screening.Root+Methods.swift:250-256 | Recording stops, then the processing screen is pushed. |
| ScreeningController.ScreeningRoot.StopCamera | Sources/SmartSpectraIosSDK/Screening/Controller/ViewController.Screening.Root+Methods.swift:258-266 | `isRecording` becomes false. |
| ScreeningController.ScreeningRoot.SetProcessingStatus | Sources/SmartSpectraIosSDK/Screening/Controller/ViewController.Screening.Root.swift:35-56 | Entering `.processing` moves to the processing screen. Entering `.processed` reports completion, dismisses, resets the status to `.idle` and stops the core. The status is never left at `.processed`. |
| ScreeningController.ScreeningRoot.UpdateFps | Sources/SmartSpectraIosSDK/Screening/Controller/ViewController.Screening.Root+PresageDelegate.swift:101-121 | The first call only records the timestamp. Each later call appends `now − lastTimestamp`, so the window is `FpsAfter` of the old window and timestamp: the 10 most recent deltas (invariant `Valid`). |
| ScreeningController.ScreeningRoot.StatusCodeChanged | Sources/SmartSpectraIosSDK/Screening/Controller/ViewController.Screening.Root+PresageDelegate.swift:38-56 | A repeated code changes neither the last code nor the button. A new code is recorded and shown: non-ok disables the button, ok gives running if recording and ready otherwise. In spot mode with FPS shown the timestamp is `now` and the window is `FpsAfter` of the old ones. |
| ScreeningController.ScreeningRoot.MetricsBufferChanged | Sources/SmartSpectraIosSDK/Screening/Controller/ViewController.Screening.Root+PresageDelegate.swift:58-80 | A decode failure changes nothing. A decoded buffer is published; in spot mode it completes processing and the status is back at idle. The FPS window and timestamp move (`FpsAfter`) exactly when a buffer decodes in continuous mode with FPS shown, and are unchanged otherwise. |
| ScreeningController.ScreeningRoot.TimerChanged | Sources/SmartSpectraIosSDK/Screening/Controller/ViewController.Screening.Root+PresageDelegate.swift:82-89 | The counter is updated (and its label set) only when the value differs. The status moves idle → processing exactly when the counter becomes 0 while idle. |
| ScreeningController.ScreeningRoot.ReceiveDenseFacemeshPoints | Sources/SmartSpectraIosSDK/Screening/Controller/ViewController.Screening.Root+PresageDelegate.swift:91-99 | The published points are the unflattened pairs. An odd count stops the process and publishes nothing. |
| ScreeningController.ScreeningRoot.BeginRecording | Sources/SmartSpectraIosSDK/Screening/Controller/ViewController.Screening.Root+Methods.swift:159-165 | The countdown's completion starts recording and sets the button to running with `isRecording` true. |
| ScreeningController.ScreeningRoot.StartCountdownForRecording | Sources/SmartSpectraIosSDK/Screening/Controller/ViewController.Screening.Root+Methods.swift:268-289 | A delay ≤ 0 runs the completion at once without entering countdown. Otherwise the button counts down, the state observer titles it with the delay, and a live timer holding the delay is scheduled. |
| ScreeningController.ScreeningRoot.CountdownTimerFired | Sources/SmartSpectraIosSDK/Screening/Controller/ViewController.Screening.Root+Methods.swift:273-288 | A firing of a scheduled timer has the effect `Tick` describes on the timer, the title (the count after the decrement), the button and `isRecording`. |
| ScreeningController.CountdownOfThree | Sources/SmartSpectraIosSDK/Screening/Controller/ViewController.Screening.Root+Methods.swift:268-288 | A three-second countdown from ready shows 3, 2, 1, 0 and then starts recording, with the timer invalidated. |
| ScreeningController.ScreeningRoot.RecordButtonTapped | Sources/SmartSpectraIosSDK/Screening/Controller/ViewController.Screening.Root+Methods.swift:158-177 | Ready starts the countdown (or recording at once). Countdown returns to ready. Running stops recording and becomes ready with `isRecording` false. Disable changes nothing. |
| ScreeningController.ScreeningRoot.BackButtonPressed | Sources/SmartSpectraIosSDK/Screening/Controller/ViewController.Screening.Root.swift:332-339 | Recording stops, the core stops and the screen is dismissed. |
| ScreeningController.ScreeningRoot.GestureShouldBegin | Sources/SmartSpectraIosSDK/Screening/Controller/ViewController.Screening.Root.swift:348-352 | The pop gesture stops recording, and every gesture may begin. |
| LegacyScreening.Hint | Sources/SmartSpectraIosSDK/Classes/Flow/Screening/Comformance/ViewController.Screening.Root+PresageDelegate.swift:40-50 | Codes 1–7 have their own hints, and exactly the other codes, 0 included, give "Hold still and record". |
| LegacyScreening.HintsDistinct | Sources/SmartSpectraIosSDK/Classes/Flow/Screening/Comformance/ViewController.Screening.Root+PresageDelegate.swift:40-50 | The seven specific hints are pairwise different. |
| LegacyScreening.WithDeviceInfo | Sources/SmartSpectraIosSDK/Classes/Flow/Screening/Comformance/ViewController.Screening.Root+PresageDelegate.swift:77-90 | `setting` becomes an object holding `OS_Version` and `Phone_Model`. Every other setting key and every other top-level key keeps its value, and distinct keys stay distinct. |
| LegacyScreening.ScreeningRoot.constructor | Sources/SmartSpectraIosSDK/Classes/Flow/Screening/Controller/ViewController.Screening.Root.swift:25-133 | Initial state: disabled button, counter 30, no JSON data. |
| LegacyScreening.ScreeningRoot.ErrorHappened | Sources/SmartSpectraIosSDK/Classes/Flow/Screening/Comformance/ViewController.Screening.Root+PresageDelegate.swift:36-67 | Nothing happens once the counter is 0. Otherwise the hint is shown and a nonzero code disables the button. Code 0 from ready or running gives running when counter < 60 and ready otherwise; from disable it gives ready. |
| LegacyScreening.ScreeningRoot.TimerChanged | Sources/SmartSpectraIosSDK/Classes/Flow/Screening/Comformance/ViewController.Screening.Root+PresageDelegate.swift:69-73 | The counter follows the truncated timer value while it is nonzero; 0 is absorbing. |
| LegacyScreening.ScreeningRoot.StartRecording | Sources/SmartSpectraIosSDK/Classes/Flow/Screening/Controller/ViewController.Screening.Root+Methods.swift:171-175 | The core is signalled with recording = true. |
| LegacyScreening.ScreeningRoot.StopRecording | Sources/SmartSpectraIosSDK/Classes/Flow/Screening/Controller/ViewController.Screening.Root+Methods.swift:178-181 | The core is signalled with recording = false. |
| LegacyScreening.ScreeningRoot.MoveToProcessing | Sources/SmartSpectraIosSDK/Classes/Flow/Screening/Controller/ViewController.Screening.Root+Methods.swift:183-196 | Recording stops, and the processing screen receives the stored JSON data unchanged. |
| LegacyScreening.ScreeningRoot.ReceiveJsonData | Sources/SmartSpectraIosSDK/Classes/Flow/Screening/Comformance/ViewController.Screening.Root+PresageDelegate.swift:75-118 | A nil object or a serialization failure stops the process. Otherwise the completed object is serialized and stored, and the processing screen is entered only when the counter is 0. |
| LegacyScreening.ScreeningRoot.RecordButtonTapped | Sources/SmartSpectraIosSDK/Classes/Flow/Screening/Controller/ViewController.Screening.Root+Methods.swift:98-110 | Ready starts recording and becomes running; running stops it and becomes ready; disable changes nothing. There is no countdown state. |
| LegacyScreening.ScreeningRoot.StopCamera | Sources/SmartSpectraIosSDK/Classes/Flow/Screening/Controller/ViewController.Screening.Root+Methods.swift:198-206 | `isRecording` becomes false. |
| LegacyScreening.ScreeningRoot.BackButtonPressed | Sources/SmartSpectraIosSDK/Classes/Flow/Screening/Controller/ViewController.Screening.Root.swift:225-228 | Recording stops and the screen is popped. |
| LegacyScreening.ScreeningRoot.GestureShouldBegin | Sources/SmartSpectraIosSDK/Classes/Flow/Screening/Controller/ViewController.Screening.Root.swift:237-241 | The pop gesture stops recording, and every gesture may begin. |
| Config.Clamp | Sources/SmartSpectraIosSDK/SmartSpectraConfig.swift:4-14 | A value below 20 is stored as 20 and one above 120 as 120. A value in [20, 120] is stored unchanged, and the result is always in [20, 120]. |
| Config.ClampIdempotent | Sources/SmartSpectraIosSDK/SmartSpectraConfig.swift:4-14 | Clamping is idempotent. |
| Config.ClampMonotone | Sources/SmartSpectraIosSDK/SmartSpectraConfig.swift:4-14 | A longer requested duration never stores a shorter one. |
| Config.SmartSpectraConfig.constructor | Sources/SmartSpectraIosSDK/SmartSpectraConfig.swift:18-22 | The initializer stores its arguments without running the observer, so an out-of-range duration is kept. |
| Config.SmartSpectraConfig.Default | Sources/SmartSpectraIosSDK/SmartSpectraConfig.swift:18 | The defaults are 30.0, `showFps` false and `saveJson` false. |
| Config.SmartSpectraConfig.SetSpotDuration | Sources/SmartSpectraIosSDK/SmartSpectraConfig.swift:4-14 | After any assignment the field holds `Clamp(value)`, so it lies in [20, 120]; the other fields are unchanged. |
| ApiKeys.KeyRegistry.constructor | Sources/SmartSpectraIosSDK/Classes/Network/Keys/Service.Keys.swift:13 | The registry starts with no key. |
| ApiKeys.KeyRegistry.SetApiKey | Sources/SmartSpectraIosSDK/Classes/Network/Keys/Service.Keys.swift:15-17 | The new key replaces any earlier one. |
| ApiKeys.KeyRegistry.CurrentApiKey | Sources/SmartSpectraIosSDK/Classes/Network/Keys/Service.Keys.swift:19-21 | Returns the stored key. Reading before any key is set traps, and only then. |
| ApiKeys.SmartSpectra.Store | Sources/SmartSpectraIosSDK/Classes/Core/SmartSpectraRoot.swift:11 | The instance holds the key it was given. |
| ApiKeys.SmartSpectra.Init | Sources/SmartSpectraIosSDK/Classes/Core/SmartSpectraRoot.swift:6-13 | An empty key is fatal and registers nothing. Any other key is stored in the new instance and published to the registry, replacing an earlier instance's key. |
| ApiKeys.InitTwice | Sources/SmartSpectraIosSDK/Classes/Core/SmartSpectraRoot.swift:12 | After two initializations the registry serves the second key, and each instance keeps its own. |
| Onboarding.GatePlan | Sources/SmartSpectraIosSDK/Classes/Core/SmartSpectraButtonViewModel.swift:29-53 | The order is walkthrough, then terms, then privacy. Each step appears iff its flag is false and the chain reaches it. An alert appears iff a probe fails, and it ends the chain. |
| Onboarding.AllFlagsSetSkipsEveryStep | Sources/SmartSpectraIosSDK/Classes/Core/SmartSpectraButtonViewModel.swift:29-53 | With all three flags set, nothing is presented and the completion runs directly. |
| Onboarding.ButtonViewModel.constructor | Sources/SmartSpectraIosSDK/Classes/Core/SmartSpectraButtonViewModel.swift:19-21 | A view model over a store holding the given flags, with nothing presented yet. |
| Onboarding.ButtonViewModel.HandleWalkthrough | Sources/SmartSpectraIosSDK/Classes/Core/SmartSpectraButtonViewModel.swift:58-63 | The tutorial is presented and `WalkthroughShown` is set. |
| Onboarding.ButtonViewModel.ShowTutorial | Sources/SmartSpectraIosSDK/Classes/Core/SmartSpectraButtonViewModel.swift:136-139 | "Show Tutorial" clears the flag and presents the tutorial, which sets the flag again. |
| Onboarding.ButtonViewModel.PresentUserAgreement | Sources/SmartSpectraIosSDK/Classes/Core/SmartSpectraButtonViewModel.swift:65-81 | Without connectivity an alert is shown and the completion is never called. Otherwise the terms screen is shown, and its answer stored. |
| Onboarding.ButtonViewModel.PresentPrivacyPolicy | Sources/SmartSpectraIosSDK/Classes/Core/SmartSpectraButtonViewModel.swift:83-99 | Same gate as the terms step, for the privacy policy. |
| Onboarding.ButtonViewModel.ShowTutorialAndAgreementIfNecessary | Sources/SmartSpectraIosSDK/Classes/Core/SmartSpectraButtonViewModel.swift:23-55 | The flags are read once, before the chain. The presented screens are exactly `GatePlan` of those flags, and the completion runs exactly when no probe failed. |
| Onboarding.ButtonViewModel.SmartSpectraButtonTapped | Sources/SmartSpectraIosSDK/Classes/Core/SmartSpectraButtonViewModel.swift:168-192 | The screening page is presented iff the chain completes and both agreement flags, read again, are true. |
| Onboarding.IndexOf | Sources/SmartSpectraIosSDK/Classes/Core/SmartSpectraButtonViewModel.swift:251 | `firstIndex(of:)`: no result iff the page is absent; otherwise its first position. |
| Onboarding.NeighboursByIndex | Sources/SmartSpectraIosSDK/Classes/Core/SmartSpectraButtonViewModel.swift:250-278 | For distinct pages, the page before page i is page i−1 when i ≥ 1 (otherwise none), and the page after it is page i+1 when i+1 < count (otherwise none). |
| Onboarding.BackAndForth | Sources/SmartSpectraIosSDK/Classes/Core/SmartSpectraButtonViewModel.swift:250-278 | Paging forward then back, or back then forward, returns to the same page. |
| Onboarding.TutorialPagesDistinct | Sources/SmartSpectraIosSDK/Classes/Core/SmartSpectraButtonViewModel.swift:218-227 | The seven tutorial pages are pairwise distinct. |
| Onboarding.ImagePager.constructor | Sources/SmartSpectraIosSDK/Classes/Core/SmartSpectraButtonViewModel.swift:210 | The pager starts with no pages. |
| Onboarding.ImagePager.ViewDidLoad | Sources/SmartSpectraIosSDK/Classes/Core/SmartSpectraButtonViewModel.swift:213-238 | Seven pages are appended, one per image and description pair in order, and the first page is shown. |
| WalkthroughOverlay.WalkthroughViewController.constructor | Sources/SmartSpectraIosSDK/Classes/Common/WalkThrough.swift:130-141 | A walkthrough over the given views starts at index 0. |
| WalkthroughOverlay.WalkthroughViewController.ShowViewAtIndex | Sources/SmartSpectraIosSDK/Classes/Common/WalkThrough.swift:65-94 | Requires an index < count (the source indexes directly). The label then shows that view's description. |
| WalkthroughOverlay.WalkthroughViewController.PresentWalkthrough | Sources/SmartSpectraIosSDK/Classes/Common/WalkThrough.swift:44-55 | Presentation starts at `currentIndex`. An out-of-range index, such as an empty list, traps. |
| WalkthroughOverlay.WalkthroughViewController.ShowWalkthroughIfNeeded | Sources/SmartSpectraIosSDK/Classes/Common/WalkThrough.swift:33-42 | The walkthrough is presented, and the flag set, only when it was not shown before. Otherwise the controller dismisses itself. |
| WalkthroughOverlay.WalkthroughViewController.DismissWalkthrough | Sources/SmartSpectraIosSDK/Classes/Common/WalkThrough.swift:98-117 | The index is reset to 0, and the views and the label are cleared. The agreement is offered only if the terms are not yet accepted. |
| WalkthroughOverlay.WalkthroughViewController.HandleTap | Sources/SmartSpectraIosSDK/Classes/Common/WalkThrough.swift:57-64 | The index moves on. The next view is shown when the index is < count; otherwise the walkthrough is dismissed. `currentIndex ≤ count` is preserved. |

## Left out

- The native `PresagePreprocessing` framework. Its callbacks (status codes, timer values, metrics bytes, JSON, facemesh points) are inputs, and protobuf decoding of a metrics buffer is an `Option` input.
- URLSession, the reachability probes and `checkInternetConnectivity`. Their outcome is a boolean or reply input: these are I/O and blocking concurrency.
- `DispatchQueue` hops, `asyncAfter` delays and Combine mirroring. Each hop is applied in the order the main queue runs it: a block queued from the main queue runs after the code that queued it, and the interleaving of queued blocks with later user events is not modelled.
- Timers and real time. Countdown firings are explicit events on the scheduled timer's index, and FPS timestamps are parameters.
- `SharedDataManager` writes. `RetrieveData` returns what it would publish, as a `Metrics` record.
- Chunk slicing, the upload loop and polling. Their callers are not part of this model.
- UIKit/SwiftUI layout and presentation: button appearance, labels, masks, frames, toasts, alerts and the agreement web views. A presentation is recorded as a screen or effect.
- The terms and privacy screens. Each one stores the user's answer in its flag; here that answer is an input. Every screen the onboarding chain presents is assumed to call its completion when the user leaves it.
- The FPS average and `1000/avg` label, plot normalisation and screen brightness: floating point, with no state of the model.
- Floating point in general. A Swift `Double` is a `real`, with no IEEE rounding, NaN or infinities. Numeric-key parsing (`Double(key)`) is an abstract partial function.
- JSON booleans that Foundation bridges to `Double` in an `as? Double` cast are not converted.
- The order of Swift dictionary iteration is taken as the order of the entry list. `sorted(by:)` is not stable in Swift; the model fixes one order for equal times.
- `Network.BuildDataRequest`: the `Content-Type` and `Content-Length` headers are set and then discarded by `createHeaders`. The model keeps only the resulting header list.
- JSON objects are entry lists that may repeat a key; parsed objects are not required to have distinct keys, and a lookup takes the first matching entry, as a decoded dictionary holds one value per key.
- `LegacyScreening.ScreeningRoot.constructor`: the declaration of `isRecording` in the earlier controller is not part of this model, and it is taken to start false.
- The core's status-code enum is not part of this model. Only `ok` and `processingNotStarted` are named; other codes are distinguished by raw value.
- The response model file for processed data is not part of this model. The `ProcessedData` record has the five fields passed at the call site.
- `ScreeningController.ScreeningRoot.CountdownTimerFired`: the button title shown during the countdown is recorded as an effect, not as the button's text.
- The action sheet's links, the camera lock settings and the `Image` extension: UI and device I/O.
