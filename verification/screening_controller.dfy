/** The screening controller of the current generation: the record button's
    state machine with its countdown, the processing status and what entering
    each status does, the callbacks of the native core, and the frame-rate
    window.

    The native core's callbacks (status codes, timer values, metrics buffers,
    facemesh points), timer ticks and clock readings are inputs. Hops to the
    main queue are applied at once, and a `didSet` observer runs as part of
    the assignment it observes. What the controller asks of the core, of the
    navigation stack and of the shared store is recorded in `effects`. */
module ScreeningController {
  import opened Wrappers
  import opened Numeric
  import ScreeningPlot

  datatype ButtonState = Disable | Ready | Countdown | Running

  datatype ProcessingStatus = Idle | Processing | Processed

  /** The core's status codes. Only `ok` and the initial
      `processingNotStarted` are named by the controller; the others are told
      apart by their raw value. */
  datatype StatusCode = Ok | ProcessingNotStarted | OtherStatus(rawValue: int)

  datatype RunningMode = Spot | Continuous

  /** What the controller asks of its surroundings. */
  datatype Effect =
    | CoreStart(duration: real)
    | CoreRecording(on: bool)
    | CoreStop
    | StatusHintToast(code: StatusCode)
    | CountdownTitle(n: int)
    | PushProcessing
    | ProcessingCompleted
    | Dismiss

  /** A repeating one-second timer scheduled by the countdown, with the
      countdown value its closure captured. */
  datatype CountdownTimer = CountdownTimer(countdown: int, live: bool)

  /** What one firing of a countdown timer does: its new state, the title it
      shows, and whether it runs the start-recording completion. */
  datatype TickResult = TickResult(timer: CountdownTimer, title: Option<int>, completes: bool)

  const MovingAveragePeriod: nat := 10

  // ----- The countdown -----

  /** One firing of the countdown timer's closure while the button is in
      `state`: a positive countdown is decremented as long as the button
      still counts down, and the title block queued on the main queue reads
      the captured count once the closure has returned, so it shows the
      decremented value; otherwise the timer is invalidated, and the
      completion runs only if the button still counts down. An invalidated
      timer no longer fires. */
  function Tick(t: CountdownTimer, state: ButtonState): (r: TickResult)
    ensures !t.live ==> r == TickResult(t, None, false)
    ensures t.live && t.countdown > 0 && state == Countdown ==>
              r == TickResult(CountdownTimer(t.countdown - 1, true), Some(t.countdown - 1), false)
    ensures r.completes <==> t.live && t.countdown <= 0 && state == Countdown
    ensures r.title.None? ==> !r.timer.live
  {
    if !t.live then TickResult(t, None, false)
    else if t.countdown > 0 && state == Countdown then
      TickResult(CountdownTimer(t.countdown - 1, true), Some(t.countdown - 1), false)
    else TickResult(CountdownTimer(t.countdown, false), None, state == Countdown)
  }

  /** `n` firings while the button stays in `state`: the final timer, the
      titles shown in order, and how many times the completion ran. */
  function Ticks(t: CountdownTimer, state: ButtonState, n: nat): (TickResult, seq<int>, nat)
    decreases n
  {
    if n == 0 then (TickResult(t, None, false), [], 0)
    else
      var first := Tick(t, state);
      var (last, titles, runs) := Ticks(first.timer, state, n - 1);
      (last, (if first.title.Some? then [first.title.value] else []) + titles,
       runs + (if first.completes then 1 else 0))
  }

  /** `[n, n - 1, ..., 0]` */
  function CountingDown(n: nat): (r: seq<int>)
    ensures |r| == n + 1
    ensures forall i :: 0 <= i <= n ==> r[i] == n - i
  {
    if n == 0 then [0] else [n] + CountingDown(n - 1)
  }

  /** With a delay of `n` seconds and the button left counting down, the
      button first shows `n` (the state observer's title), and the first `n`
      firings show `n - 1` down to 0 without starting recording. */
  lemma {:induction false} CountdownShowsEverySecond(n: nat)
    ensures [n] + Ticks(CountdownTimer(n, true), Countdown, n).1 == CountingDown(n)
    ensures Ticks(CountdownTimer(n, true), Countdown, n) ==
            (TickResult(CountdownTimer(0, true), None, false), CountingDown(n)[1..], 0)
  {
    if n > 0 {
      CountdownShowsEverySecond(n - 1);
      assert [n - 1] + CountingDown(n - 1)[1..] == CountingDown(n - 1);
    }
  }

  /** The firing after that runs the completion, once, and ends the timer. */
  lemma CountdownCompletesOnce()
    ensures Tick(CountdownTimer(0, true), Countdown) == TickResult(CountdownTimer(0, false), None, true)
    ensures forall s: ButtonState :: Tick(CountdownTimer(0, false), s).completes == false
  {
  }

  /** However many times a timer fires while the button stays in a state
      other than `countdown` (a tap cancelled it), the completion never runs
      and nothing is shown after the first firing. A timer that did not fire
      during the cancellation is still live; `StaleTimerStartsRecording`
      shows what it does once the button counts down again. */
  lemma {:induction false} CancelledCountdownNeverCompletes(t: CountdownTimer, state: ButtonState, n: nat)
    requires state != Countdown
    ensures Ticks(t, state, n).2 == 0 && Ticks(t, state, n).1 == []
    ensures n > 0 ==> !Ticks(t, state, n).0.timer.live
    decreases n
  {
    if n > 0 {
      CancelledCountdownNeverCompletes(Tick(t, state).timer, state, n - 1);
    }
  }

  // ----- Facemesh points -----

  /** `stride(from: 0, to: count, by: 2).map { (p[$0].int16Value,
      p[$0 + 1].int16Value) }`: pairs of consecutive points, each narrowed to
      16 bits. An odd count reads one past the end, which stops the process. */
  function Unflatten(points: seq<int>): (r: Guarded<seq<(int, int)>>)
    ensures r.Completes? <==> |points| % 2 == 0
    ensures r.Completes? ==> |r.value| * 2 == |points|
    ensures r.Completes? ==> forall i :: 0 <= i < |r.value| ==>
              r.value[i] == (Int16Value(points[2 * i]), Int16Value(points[2 * i + 1]))
  {
    if |points| == 0 then Completes([])
    else if |points| == 1 then Traps
    else match Unflatten(points[2..])
      case Completes(rest) => Completes([(Int16Value(points[0]), Int16Value(points[1]))] + rest)
      case Traps => Traps
  }

  function Flatten(pairs: seq<(int, int)>): (r: seq<int>)
    ensures |r| == 2 * |pairs|
  {
    if pairs == [] then [] else [pairs[0].0, pairs[0].1] + Flatten(pairs[1..])
  }

  predicate InInt16Range(points: seq<int>) {
    forall i :: 0 <= i < |points| ==> -0x8000 <= points[i] < 0x8000
  }

  /** Points that fit in 16 bits survive unflattening unchanged. */
  lemma {:induction false} UnflattenRoundTrip(points: seq<int>)
    requires |points| % 2 == 0 && InInt16Range(points)
    ensures Unflatten(points).Completes? && Flatten(Unflatten(points).value) == points
  {
    if |points| > 0 {
      assert InInt16Range(points[2..]) by {
        forall i | 0 <= i < |points[2..]| ensures -0x8000 <= points[2..][i] < 0x8000 {
          assert points[2..][i] == points[i + 2];
        }
      }
      UnflattenRoundTrip(points[2..]);
      assert points == [points[0], points[1]] + points[2..];
    }
  }

  // ----- The frame-rate window -----

  /** The most recent `MovingAveragePeriod` deltas, oldest first. */
  function Window(deltas: seq<int>): (r: seq<int>)
    ensures |r| <= MovingAveragePeriod
    ensures |deltas| <= MovingAveragePeriod ==> r == deltas
    ensures |deltas| >= MovingAveragePeriod ==> |r| == MovingAveragePeriod
    ensures r == deltas[|deltas| - |r|..]
  {
    if |deltas| <= MovingAveragePeriod then deltas else deltas[|deltas| - MovingAveragePeriod..]
  }

  /** Appending a delta and dropping the first when over the period keeps the
      window on the most recent deltas. */
  lemma WindowSlides(deltas: seq<int>, d: int)
    ensures var appended := Window(deltas) + [d];
            Window(deltas + [d]) ==
              if |appended| > MovingAveragePeriod then appended[1..] else appended
  {
    var appended := Window(deltas) + [d];
    if |appended| > MovingAveragePeriod {
      assert |deltas| >= MovingAveragePeriod;
      assert Window(deltas + [d]) == appended[1..];
    }
  }

  /** The source's update of the window: the new delta is appended and,
      when that makes the window longer than the period, the oldest one is
      removed. On a full window this is the window of the extended list. */
  method Slide(window: seq<int>, d: int) returns (r: seq<int>)
    requires |window| <= MovingAveragePeriod
    ensures r == Window(window + [d])
  {
    r := window + [d];
    if |r| > MovingAveragePeriod {
      r := r[1..];
    }
  }

  /** Extending the window of the deltas by one gives the same window as
      extending the deltas themselves. */
  lemma WindowStep(window: seq<int>, deltas: seq<int>, d: int)
    requires window == Window(deltas)
    ensures Window(window + [d]) == Window(deltas + [d])
  {
    WindowSlides(deltas, d);
  }

  /** The window after a frame at `now`: the first frame only records its
      time, each later one adds its distance from the previous frame. */
  function FpsAfter(window: seq<int>, lastTimestamp: Option<int>, now: int): seq<int> {
    match lastTimestamp
    case Some(t) => Window(window + [now - t])
    case None => window
  }

  // ----- The controller -----

  class ScreeningRoot {
    var buttonState: ButtonState
    var processingStatus: ProcessingStatus
    var isRecording: bool
    var counter: real
    /** The counter view's text, as the integer shown; unset until the
        counter is first assigned after initialisation. */
    var counterText: Option<int>
    var lastStatusCode: StatusCode
    var lastTimestamp: Option<int>
    var fpsValues: seq<int>
    /** Every delta recorded since initialisation. */
    ghost var deltas: seq<int>
    var countdownTimers: seq<CountdownTimer>
    var metricsBuffer: Option<ScreeningPlot.MetricsBuffer>
    var meshPoints: seq<(int, int)>
    var effects: seq<Effect>

    /** The frame-rate window holds the most recent deltas, and the processed
        status never outlives the handler that sets it. */
    ghost predicate Valid()
      reads this
    {
      fpsValues == Window(deltas) && processingStatus != Processed
    }

    /** `init(viewModel:)`: the counter starts at the configured duration
        (without running its observer), the button disabled, nothing
        recorded yet. */
    constructor (spotDuration: real)
      ensures Valid()
      ensures buttonState == Disable && processingStatus == Idle && !isRecording
      ensures counter == spotDuration && counterText.None?
      ensures lastStatusCode == ProcessingNotStarted && lastTimestamp.None?
      ensures fpsValues == [] && countdownTimers == [] && effects == []
      ensures metricsBuffer.None? && meshPoints == []
    {
      buttonState := Disable;
      processingStatus := Idle;
      isRecording := false;
      counter := spotDuration;
      counterText := None;
      lastStatusCode := ProcessingNotStarted;
      lastTimestamp := None;
      fpsValues := [];
      deltas := [];
      countdownTimers := [];
      metricsBuffer := None;
      meshPoints := [];
      effects := [];
    }

    /** `viewDidLoad`: the core is started for the configured duration. */
    method ViewDidLoad(spotDuration: real)
      modifies this
      ensures effects == old(effects) + [CoreStart(spotDuration)]
      ensures buttonState == old(buttonState) && processingStatus == old(processingStatus)
      ensures isRecording == old(isRecording) && counter == old(counter)
      ensures fpsValues == old(fpsValues) && countdownTimers == old(countdownTimers)
      ensures lastStatusCode == old(lastStatusCode) && lastTimestamp == old(lastTimestamp)
      ensures deltas == old(deltas) && counterText == old(counterText)
      ensures metricsBuffer == old(metricsBuffer) && meshPoints == old(meshPoints)
    {
      effects := effects + [CoreStart(spotDuration)];
    }

    /** `startRecording` */
    method StartRecording()
      modifies this
      ensures effects == old(effects) + [CoreRecording(true)]
      ensures buttonState == old(buttonState) && processingStatus == old(processingStatus)
      ensures isRecording == old(isRecording) && counter == old(counter)
      ensures fpsValues == old(fpsValues) && countdownTimers == old(countdownTimers)
      ensures lastStatusCode == old(lastStatusCode) && lastTimestamp == old(lastTimestamp)
      ensures deltas == old(deltas) && counterText == old(counterText)
      ensures metricsBuffer == old(metricsBuffer) && meshPoints == old(meshPoints)
    {
      effects := effects + [CoreRecording(true)];
    }

    /** `stopRecording` */
    method StopRecording()
      modifies this
      ensures effects == old(effects) + [CoreRecording(false)]
      ensures buttonState == old(buttonState) && processingStatus == old(processingStatus)
      ensures isRecording == old(isRecording) && counter == old(counter)
      ensures fpsValues == old(fpsValues) && countdownTimers == old(countdownTimers)
      ensures lastStatusCode == old(lastStatusCode) && lastTimestamp == old(lastTimestamp)
      ensures deltas == old(deltas) && counterText == old(counterText)
      ensures metricsBuffer == old(metricsBuffer) && meshPoints == old(meshPoints)
    {
      effects := effects + [CoreRecording(false)];
    }

    /** `moveToProcessing`: recording stops and the processing screen is
        pushed. */
    method MoveToProcessing()
      modifies this
      ensures effects == old(effects) + [CoreRecording(false), PushProcessing]
      ensures buttonState == old(buttonState) && processingStatus == old(processingStatus)
      ensures isRecording == old(isRecording) && counter == old(counter)
      ensures fpsValues == old(fpsValues) && countdownTimers == old(countdownTimers)
      ensures lastStatusCode == old(lastStatusCode) && lastTimestamp == old(lastTimestamp)
      ensures deltas == old(deltas) && counterText == old(counterText)
      ensures metricsBuffer == old(metricsBuffer) && meshPoints == old(meshPoints)
    {
      StopRecording();
      effects := effects + [PushProcessing];
    }

    /** `stopCamera` */
    method StopCamera()
      modifies this
      ensures !isRecording
      ensures effects == old(effects)
      ensures buttonState == old(buttonState) && processingStatus == old(processingStatus)
      ensures counter == old(counter)
      ensures fpsValues == old(fpsValues) && countdownTimers == old(countdownTimers)
      ensures lastStatusCode == old(lastStatusCode) && lastTimestamp == old(lastTimestamp)
      ensures deltas == old(deltas) && counterText == old(counterText)
      ensures metricsBuffer == old(metricsBuffer) && meshPoints == old(meshPoints)
    {
      isRecording := false;
    }

    /** Assignment to `processingStatus` with its observer: entering
        `processing` moves to the processing screen; entering `processed`
        reports completion, dismisses the screen, resets the status to `idle`
        and stops the core. */
    method SetProcessingStatus(s: ProcessingStatus)
      modifies this
      ensures processingStatus == (if s == Processed then Idle else s)
      ensures s == Idle ==> effects == old(effects)
      ensures s == Processing ==> effects == old(effects) + [CoreRecording(false), PushProcessing]
      ensures s == Processed ==> effects == old(effects) + [ProcessingCompleted, Dismiss, CoreStop]
      ensures buttonState == old(buttonState)
      ensures isRecording == old(isRecording) && counter == old(counter)
      ensures fpsValues == old(fpsValues) && countdownTimers == old(countdownTimers)
      ensures lastStatusCode == old(lastStatusCode) && lastTimestamp == old(lastTimestamp)
      ensures deltas == old(deltas) && counterText == old(counterText)
      ensures metricsBuffer == old(metricsBuffer) && meshPoints == old(meshPoints)
    {
      processingStatus := s;
      match s {
        case Idle =>
        case Processing =>
          MoveToProcessing();
        case Processed =>
          effects := effects + [ProcessingCompleted, Dismiss];
          processingStatus := Idle;
          effects := effects + [CoreStop];
      }
    }

    /** `updateFps`: every call but the first records the time elapsed since
        the previous one, keeping only the most recent
        `MovingAveragePeriod` of them. */
    method UpdateFps(currentTime: int)
      requires Valid()
      modifies this
      ensures Valid()
      ensures lastTimestamp == Some(currentTime)
      ensures old(lastTimestamp).None? ==> fpsValues == old(fpsValues) && deltas == old(deltas)
      ensures old(lastTimestamp).Some? ==> deltas == old(deltas) + [currentTime - old(lastTimestamp).value]
      ensures old(lastTimestamp).Some? ==> fpsValues == Window(old(fpsValues) + [currentTime - old(lastTimestamp).value])
      ensures fpsValues == FpsAfter(old(fpsValues), old(lastTimestamp), currentTime)
      ensures |fpsValues| <= MovingAveragePeriod
      ensures buttonState == old(buttonState) && processingStatus == old(processingStatus)
      ensures isRecording == old(isRecording) && counter == old(counter)
      ensures countdownTimers == old(countdownTimers) && effects == old(effects)
      ensures lastStatusCode == old(lastStatusCode) && counterText == old(counterText)
      ensures metricsBuffer == old(metricsBuffer) && meshPoints == old(meshPoints)
    {
      if lastTimestamp.Some? {
        var deltaTime := currentTime - lastTimestamp.value;
        WindowStep(fpsValues, deltas, deltaTime);
        fpsValues := Slide(fpsValues, deltaTime);
        deltas := deltas + [deltaTime];
      }
      lastTimestamp := Some(currentTime);
    }

    /** `statusCodeChanged`: a code different from the last one is recorded,
        shown as a hint, and decides the button: disabled unless the code is
        `ok`, and then running or ready by whether recording is on. In spot
        mode with the frame rate shown, the frame-rate window is updated. */
    method StatusCodeChanged(statusCode: StatusCode, mode: RunningMode, showFps: bool, now: int)
      requires Valid()
      modifies this
      ensures Valid()
      ensures statusCode == old(lastStatusCode) ==> buttonState == old(buttonState)
      ensures lastStatusCode == statusCode
      ensures statusCode != old(lastStatusCode) && statusCode != Ok ==> buttonState == Disable
      ensures statusCode != old(lastStatusCode) && statusCode == Ok ==>
                buttonState == (if isRecording then Running else Ready)
      ensures effects == old(effects) + (if statusCode != old(lastStatusCode) then [StatusHintToast(statusCode)] else [])
      ensures mode == Spot && showFps ==>
                lastTimestamp == Some(now) && fpsValues == FpsAfter(old(fpsValues), old(lastTimestamp), now)
      ensures !(mode == Spot && showFps) ==> lastTimestamp == old(lastTimestamp) && fpsValues == old(fpsValues)
      ensures processingStatus == old(processingStatus)
      ensures isRecording == old(isRecording) && counter == old(counter)
      ensures countdownTimers == old(countdownTimers) && counterText == old(counterText)
      ensures metricsBuffer == old(metricsBuffer) && meshPoints == old(meshPoints)
    {
      if statusCode != lastStatusCode {
        lastStatusCode := statusCode;
        effects := effects + [StatusHintToast(statusCode)];
        if statusCode != Ok {
          buttonState := Disable;
        } else {
          buttonState := if isRecording then Running else Ready;
        }
      }
      if mode == Spot && showFps {
        UpdateFps(now);
      }
    }

    /** `metricsBufferChanged`: a buffer that decodes is published; in spot
        mode it marks processing as done (which at once resets the status to
        idle), and in continuous mode with the frame rate shown it updates
        the frame-rate window. A buffer that does not decode changes
        nothing. */
    method MetricsBufferChanged(decoded: Option<ScreeningPlot.MetricsBuffer>, mode: RunningMode,
                                showFps: bool, now: int)
      requires Valid()
      modifies this
      ensures Valid()
      ensures decoded.None? ==>
                metricsBuffer == old(metricsBuffer) && effects == old(effects) &&
                processingStatus == old(processingStatus) && lastTimestamp == old(lastTimestamp) &&
                fpsValues == old(fpsValues)
      ensures decoded.Some? ==> metricsBuffer == decoded
      ensures decoded.Some? && mode == Spot ==>
                processingStatus == Idle && effects == old(effects) + [ProcessingCompleted, Dismiss, CoreStop] &&
                lastTimestamp == old(lastTimestamp)
      ensures decoded.Some? && mode == Continuous ==>
                processingStatus == old(processingStatus) && effects == old(effects)
      ensures decoded.Some? && mode == Continuous && showFps ==>
                lastTimestamp == Some(now) && fpsValues == FpsAfter(old(fpsValues), old(lastTimestamp), now)
      ensures !(decoded.Some? && mode == Continuous && showFps) ==>
                lastTimestamp == old(lastTimestamp) && fpsValues == old(fpsValues)
      ensures buttonState == old(buttonState)
      ensures isRecording == old(isRecording) && counter == old(counter)
      ensures countdownTimers == old(countdownTimers) && counterText == old(counterText)
      ensures lastStatusCode == old(lastStatusCode) && meshPoints == old(meshPoints)
    {
      match decoded {
        case None =>
        case Some(buffer) =>
          metricsBuffer := Some(buffer);
          if mode == Spot {
            SetProcessingStatus(Processed);
          }
          if mode == Continuous && showFps {
            UpdateFps(now);
          }
      }
    }

    /** `timerChanged`: a value different from the counter is stored (and
        shown, truncated); when it is zero while idle, processing starts. */
    method TimerChanged(timerValue: real)
      requires Valid()
      modifies this
      ensures Valid()
      ensures counter == timerValue
      ensures timerValue == old(counter) ==> counterText == old(counterText)
      ensures timerValue != old(counter) ==> counterText == Some(TruncateToInt(timerValue))
      ensures processingStatus == (if timerValue != old(counter) && timerValue == 0.0 && old(processingStatus) == Idle
                                   then Processing else old(processingStatus))
      ensures effects == old(effects) +
                (if processingStatus != old(processingStatus) then [CoreRecording(false), PushProcessing] else [])
      ensures buttonState == old(buttonState) && isRecording == old(isRecording)
      ensures fpsValues == old(fpsValues) && countdownTimers == old(countdownTimers)
      ensures lastStatusCode == old(lastStatusCode) && lastTimestamp == old(lastTimestamp)
      ensures metricsBuffer == old(metricsBuffer) && meshPoints == old(meshPoints)
    {
      if counter != timerValue {
        counter := timerValue;
        counterText := Some(TruncateToInt(counter));
        if counter == 0.0 && processingStatus == Idle {
          SetProcessingStatus(Processing);
        }
      }
    }

    /** `receiveDenseFacemeshPoints`: the unflattened points are published;
        an odd count stops the process before anything is published. */
    method ReceiveDenseFacemeshPoints(points: seq<int>) returns (outcome: Guarded<()>)
      modifies this
      ensures outcome.Traps? <==> |points| % 2 == 1
      ensures outcome.Completes? ==> meshPoints == Unflatten(points).value
      ensures outcome.Traps? ==> meshPoints == old(meshPoints)
      ensures buttonState == old(buttonState) && processingStatus == old(processingStatus)
      ensures isRecording == old(isRecording) && counter == old(counter)
      ensures fpsValues == old(fpsValues) && countdownTimers == old(countdownTimers)
      ensures lastStatusCode == old(lastStatusCode) && lastTimestamp == old(lastTimestamp)
      ensures deltas == old(deltas) && counterText == old(counterText)
      ensures metricsBuffer == old(metricsBuffer) && effects == old(effects)
    {
      match Unflatten(points) {
        case Traps =>
          outcome := Traps;
        case Completes(pairs) =>
          meshPoints := pairs;
          outcome := Completes(());
      }
    }

    /** The countdown's completion: recording starts and the button shows it. */
    method BeginRecording()
      modifies this
      ensures buttonState == Running && isRecording
      ensures effects == old(effects) + [CoreRecording(true)]
      ensures processingStatus == old(processingStatus) && counter == old(counter)
      ensures fpsValues == old(fpsValues) && countdownTimers == old(countdownTimers)
      ensures lastStatusCode == old(lastStatusCode) && lastTimestamp == old(lastTimestamp)
      ensures deltas == old(deltas) && counterText == old(counterText)
      ensures metricsBuffer == old(metricsBuffer) && meshPoints == old(meshPoints)
    {
      StartRecording();
      buttonState := Running;
      isRecording := true;
    }

    /** `startCountdownForRecording`: without a positive delay the completion
        runs at once; otherwise the button counts down, its observer titles
        it with the delay, and a timer holding the delay is scheduled. */
    method StartCountdownForRecording(recordingDelay: int)
      modifies this
      ensures recordingDelay <= 0 ==>
                buttonState == Running && isRecording &&
                effects == old(effects) + [CoreRecording(true)] && countdownTimers == old(countdownTimers)
      ensures recordingDelay > 0 ==>
                buttonState == Countdown && isRecording == old(isRecording) &&
                effects == old(effects) + [CountdownTitle(recordingDelay)] &&
                countdownTimers == old(countdownTimers) + [CountdownTimer(recordingDelay, true)]
      ensures processingStatus == old(processingStatus) && counter == old(counter)
      ensures fpsValues == old(fpsValues) && deltas == old(deltas)
      ensures lastStatusCode == old(lastStatusCode) && lastTimestamp == old(lastTimestamp)
      ensures counterText == old(counterText)
      ensures metricsBuffer == old(metricsBuffer) && meshPoints == old(meshPoints)
    {
      var countdown := recordingDelay;
      if !(countdown > 0) {
        BeginRecording();
        return;
      }
      buttonState := Countdown;
      effects := effects + [CountdownTitle(countdown)];
      countdownTimers := countdownTimers + [CountdownTimer(countdown, true)];
    }

    /** A firing of the `i`-th countdown timer scheduled. */
    method CountdownTimerFired(i: nat)
      modifies this
      ensures i >= |old(countdownTimers)| ==>
                countdownTimers == old(countdownTimers) && buttonState == old(buttonState) &&
                effects == old(effects) && isRecording == old(isRecording)
      ensures i < |old(countdownTimers)| ==>
                var r := Tick(old(countdownTimers)[i], old(buttonState));
                countdownTimers == old(countdownTimers)[i := r.timer] &&
                (r.title.Some? ==> effects == old(effects) + [CountdownTitle(r.title.value)]) &&
                (r.completes ==> effects == old(effects) + [CoreRecording(true)] &&
                                 buttonState == Running && isRecording) &&
                (r.title.None? && !r.completes ==> effects == old(effects)) &&
                (!r.completes ==> buttonState == old(buttonState) && isRecording == old(isRecording))
      ensures processingStatus == old(processingStatus) && counter == old(counter)
      ensures fpsValues == old(fpsValues) && deltas == old(deltas)
      ensures lastStatusCode == old(lastStatusCode) && lastTimestamp == old(lastTimestamp)
      ensures counterText == old(counterText)
      ensures metricsBuffer == old(metricsBuffer) && meshPoints == old(meshPoints)
    {
      if i >= |countdownTimers| {
        return;
      }
      var timer := countdownTimers[i];
      if !timer.live {
        return;
      }
      if timer.countdown > 0 && buttonState == Countdown {
        effects := effects + [CountdownTitle(timer.countdown - 1)];
        countdownTimers := countdownTimers[i := CountdownTimer(timer.countdown - 1, true)];
      } else {
        countdownTimers := countdownTimers[i := CountdownTimer(timer.countdown, false)];
        if buttonState == Countdown {
          BeginRecording();
        }
      }
    }

    /** `recordButtonTapped`: from ready the countdown starts; during the
        countdown a tap cancels it; while running recording stops; a disabled
        button does nothing. */
    method RecordButtonTapped(recordingDelay: int)
      modifies this
      ensures old(buttonState) == Ready ==>
                (recordingDelay <= 0 ==> buttonState == Running && isRecording &&
                                         effects == old(effects) + [CoreRecording(true)]) &&
                (recordingDelay > 0 ==> buttonState == Countdown && isRecording == old(isRecording) &&
                                        effects == old(effects) + [CountdownTitle(recordingDelay)] &&
                                        countdownTimers == old(countdownTimers) + [CountdownTimer(recordingDelay, true)])
      ensures old(buttonState) == Countdown ==>
                buttonState == Ready && isRecording == old(isRecording) && effects == old(effects)
      ensures old(buttonState) == Running ==>
                buttonState == Ready && !isRecording && effects == old(effects) + [CoreRecording(false)]
      ensures old(buttonState) == Disable ==>
                buttonState == Disable && isRecording == old(isRecording) && effects == old(effects)
      ensures old(buttonState) != Ready ==> countdownTimers == old(countdownTimers)
      ensures processingStatus == old(processingStatus) && counter == old(counter)
      ensures fpsValues == old(fpsValues) && deltas == old(deltas)
      ensures lastStatusCode == old(lastStatusCode) && lastTimestamp == old(lastTimestamp)
      ensures counterText == old(counterText)
      ensures metricsBuffer == old(metricsBuffer) && meshPoints == old(meshPoints)
    {
      if buttonState == Ready {
        StartCountdownForRecording(recordingDelay);
      } else if buttonState == Countdown {
        buttonState := Ready;
      } else if buttonState == Running {
        StopRecording();
        buttonState := Ready;
        isRecording := false;
      }
    }

    /** `backButtonPressed`: recording stops, the core stops and the screen
        is dismissed. */
    method BackButtonPressed()
      modifies this
      ensures effects == old(effects) + [CoreRecording(false), CoreStop, Dismiss]
      ensures buttonState == old(buttonState) && processingStatus == old(processingStatus)
      ensures isRecording == old(isRecording) && counter == old(counter)
      ensures fpsValues == old(fpsValues) && countdownTimers == old(countdownTimers)
      ensures lastStatusCode == old(lastStatusCode) && lastTimestamp == old(lastTimestamp)
      ensures deltas == old(deltas) && counterText == old(counterText)
      ensures metricsBuffer == old(metricsBuffer) && meshPoints == old(meshPoints)
    {
      StopRecording();
      effects := effects + [CoreStop, Dismiss];
    }

    /** `gestureRecognizerShouldBegin`: the interactive pop gesture stops
        recording; every gesture may begin. */
    method GestureShouldBegin(isPopGesture: bool) returns (begin: bool)
      modifies this
      ensures begin
      ensures effects == old(effects) + (if isPopGesture then [CoreRecording(false)] else [])
      ensures buttonState == old(buttonState) && processingStatus == old(processingStatus)
      ensures isRecording == old(isRecording) && counter == old(counter)
      ensures fpsValues == old(fpsValues) && countdownTimers == old(countdownTimers)
      ensures lastStatusCode == old(lastStatusCode) && lastTimestamp == old(lastTimestamp)
      ensures deltas == old(deltas) && counterText == old(counterText)
      ensures metricsBuffer == old(metricsBuffer) && meshPoints == old(meshPoints)
    {
      if !isPopGesture {
        return true;
      }
      StopRecording();
      return true;
    }
  }

  /** A three-second countdown from the ready state: the observer shows 3,
      the firings show 2, 1 and 0, and the next firing starts recording. */
  method CountdownOfThree(root: ScreeningRoot)
    requires root.buttonState == Ready && root.countdownTimers == []
    modifies root
    ensures root.effects == old(root.effects) +
              [CountdownTitle(3), CountdownTitle(2), CountdownTitle(1), CountdownTitle(0), CoreRecording(true)]
    ensures root.buttonState == Running && root.isRecording
    ensures root.countdownTimers == [CountdownTimer(0, false)]
  {
    root.RecordButtonTapped(3);
    root.CountdownTimerFired(0);
    root.CountdownTimerFired(0);
    root.CountdownTimerFired(0);
    root.CountdownTimerFired(0);
  }

  /** A countdown cancelled before its timer fired again, then restarted
      with a longer delay: the first timer's closure only checks that the
      button counts down, so it starts recording after its own remaining
      count, while the new countdown has not shown anything yet. */
  method StaleTimerStartsRecording(root: ScreeningRoot)
    requires root.buttonState == Ready && root.countdownTimers == []
    modifies root
    ensures root.buttonState == Running && root.isRecording
    ensures |root.countdownTimers| == 2 && root.countdownTimers[1] == CountdownTimer(3, true)
  {
    root.RecordButtonTapped(1);
    root.RecordButtonTapped(3);
    root.RecordButtonTapped(3);
    root.CountdownTimerFired(0);
    root.CountdownTimerFired(0);
  }
}
