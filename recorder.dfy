/**
  The recording pipeline of RecordingService.

  The service owns a BufferedWriter (absent or open on one CSV file) and a
  single-thread executor; every file operation is a task queued on that
  executor and run later, one at a time, in queue order. Start queues an
  OpenFile task, sensor and location callbacks queue Write tasks, stop queues a
  Close task. The abstract state is the value Service; the pure functions below
  give the effect of each callback and of running one queued task, and the
  class RecordingService performs the same steps on its fields and is proved to
  agree with them.
 */
module Recorder {
  import opened Csv

  datatype Option<T> = None | Some(value: T)

  const ACTION_START: string := "com.example.roadsensorrecorder.action.START"
  const ACTION_STOP: string := "com.example.roadsensorrecorder.action.STOP"

  /** Service.START_NOT_STICKY, what onStartCommand always returns. */
  const START_NOT_STICKY: int := 2

  /** An Intent as far as onStartCommand looks at it: its action, which may be null. */
  datatype Intent = Intent(action: Option<string>)

  /** A SensorEvent: its sensor (may be null) and its float values (may be null, may be short). */
  datatype Sensor = Sensor(sensorType: int)
  datatype SensorEvent = SensorEvent(sensor: Option<Sensor>, values: Option<seq<Rendering>>)

  /** A location fix, by the renderings of its latitude and longitude. */
  datatype Location = Location(latitude: Rendering, longitude: Rendering)

  /** Which motion sensors SensorManager.getDefaultSensor found in onCreate. */
  datatype Motion = Motion(hasAccelerometer: bool, hasGyroscope: bool)

  /**
    Whether ACCESS_FINE_LOCATION / ACCESS_COARSE_LOCATION are granted and the
    location request is not refused: a requestLocationUpdates that throws
    SecurityException despite the check is given as both false.
   */
  datatype Permissions = Permissions(fine: bool, coarse: bool)

  /** The registrations the service holds with SensorManager and the fused location client. */
  datatype Source = AccelerometerListener | GyroscopeListener | LocationUpdates

  /** The local broadcasts the service sends. */
  datatype Broadcast = RecordingStarted | RecordingStopped

  /** The tasks queued on the single-thread ioExecutor. */
  datatype Task = OpenFile | Write(line: string) | Close

  /**
    The service's state:
    - writer: the file bufferedWriter writes to, None when it is null;
    - disk: the lines of every file the service created, by file name;
    - files: the names of the files created, in order of creation;
    - leaked: files whose writer was replaced while still open (never closed);
    - queue: the tasks waiting on ioExecutor; shutDown once shutdownNow ran;
    - running: sIsRunning; persisted: "is_recording" in app_prefs;
    - registered: the listeners and location updates currently registered;
    - broadcasts: every broadcast sent, in order.
   */
  datatype Service = Service(
    writer: Option<string>,
    disk: map<string, seq<string>>,
    files: seq<string>,
    leaked: seq<string>,
    queue: seq<Task>,
    shutDown: bool,
    running: bool,
    persisted: bool,
    registered: set<Source>,
    broadcasts: seq<Broadcast>)

  /** The name of the file opened at the given SimpleDateFormat timestamp. */
  function FileName(stamp: string): string {
    "sensor_data_" + stamp + ".csv"
  }

  /**
    The state right after onCreate. onCreate writes neither the static
    sIsRunning nor the preferences, so both are whatever they were before
    (the activity sets sIsRunning just after asking for the service).
   */
  function Created(running: bool, persisted: bool): Service {
    Service(None, map[], [], [], [], false, running, persisted, {}, [])
  }

  function Contents(disk: map<string, seq<string>>, f: string): seq<string> {
    if f in disk then disk[f] else []
  }

  // ---------------------------------------------------------------------------
  // The callbacks, as functions of the state.

  /** ioExecutor.execute: queue the task; after shutdownNow the executor takes nothing. */
  function Submit(s: Service, t: Task): Service {
    if s.shutDown then s else s.(queue := s.queue + [t])
  }

  /** The registrations startRecordingInternal makes. */
  function Available(motion: Motion, perm: Permissions): set<Source> {
    (if motion.hasAccelerometer then {AccelerometerListener} else {})
    + (if motion.hasGyroscope then {GyroscopeListener} else {})
    + (if perm.fine || perm.coarse then {LocationUpdates} else {})
  }

  /** startRecordingInternal. There is no check that a recording is already running. */
  function Start(s: Service, motion: Motion, perm: Permissions): Service {
    var s1 := Submit(s, OpenFile);
    s1.(running := true, persisted := true,
        registered := s1.registered + Available(motion, perm),
        broadcasts := s1.broadcasts + [RecordingStarted])
  }

  /** stopRecordingInternal. There is no check that a recording is running. */
  function Stop(s: Service): Service {
    var s1 := s.(running := false, registered := {});
    var s2 := Submit(s1, Close);
    s2.(broadcasts := s2.broadcasts + [RecordingStopped], persisted := false)
  }

  predicate IsStopIntent(intent: Option<Intent>) {
    intent.Some? && intent.value.action == Some(ACTION_STOP)
  }

  /** onStartCommand: the stop action stops, everything else (a null intent too) starts. */
  function StartCommand(s: Service, intent: Option<Intent>, motion: Motion, perm: Permissions): Service {
    if IsStopIntent(intent) then Stop(s) else Start(s, motion, perm)
  }

  /** ioExecutor.shutdownNow: drops every task the worker has not yet taken; later ones are refused. */
  function Shutdown(s: Service): Service {
    s.(queue := [], shutDown := true)
  }

  /** onDestroy as one step: stop, then shutdownNow before the worker takes anything. */
  function Destroy(s: Service): Service {
    Shutdown(Stop(s))
  }

  predicate IsComplete(event: Option<SensorEvent>) {
    event.Some? && event.value.sensor.Some? && event.value.values.Some?
  }

  /** onSensorChanged at clock reading `now`. */
  function SensorChanged(s: Service, event: Option<SensorEvent>, now: nat): Service {
    if s.writer.None? || !IsComplete(event) then s
    else Submit(s, Write(SensorLine(now, event.value.sensor.value.sensorType, event.value.values.value)))
  }

  /** writeLocation at clock reading `now`; it does not look at the writer. */
  function LocationWritten(s: Service, location: Option<Location>, now: nat): Service {
    match location
    case None => s
    case Some(loc) => Submit(s, Write(LocationLine(now, loc.latitude, loc.longitude)))
  }

  /** onLocationResult: writeLocation for each fix in list order, clock[i] read for fix i. */
  function LocationResult(s: Service, locations: seq<Option<Location>>, clock: seq<nat>): Service
    requires |clock| == |locations|
    decreases |locations|
  {
    if locations == [] then s
    else
      var n := |locations| - 1;
      LocationWritten(LocationResult(s, locations[..n], clock[..n]), locations[n], clock[n])
  }

  /** The Write tasks a list of fixes should produce: one per non-null fix, in list order. */
  function LocationTasks(locations: seq<Option<Location>>, clock: seq<nat>): seq<Task>
    requires |clock| == |locations|
  {
    if locations == [] then []
    else
      (match locations[0]
       case None => []
       case Some(loc) => [Write(LocationLine(clock[0], loc.latitude, loc.longitude))])
      + LocationTasks(locations[1..], clock[1..])
  }

  // ---------------------------------------------------------------------------
  // The executor's worker running one task.

  /**
    Run the task at the head of the queue. `stamp` is the date text the task
    reads from the clock when it runs; `ioOk` is false when the task's file
    operation throws an IOException, which the task catches and logs.
   */
  function RunNext(s: Service, stamp: string, ioOk: bool): Service {
    if s.queue == [] then s
    else
      var s1 := s.(queue := s.queue[1..]);
      match s.queue[0]
      case OpenFile =>
        // new FileWriter(file) truncates or creates the file; when it throws,
        // the assignment to bufferedWriter never happens
        if !ioOk then s1
        else
          var name := FileName(stamp);
          s1.(writer := Some(name), disk := s.disk[name := [Header]], files := s.files + [name],
              leaked := s.leaked + (if s.writer.Some? then [s.writer.value] else []))
      case Write(line) =>
        if s.writer.Some? && ioOk
        then s1.(disk := s.disk[s.writer.value := Contents(s.disk, s.writer.value) + [line]])
        else s1
      case Close =>
        // when flush or close throws, bufferedWriter = null is skipped
        if s.writer.Some? && ioOk then s1.(writer := None) else s1
  }

  datatype Step = Step(stamp: string, ioOk: bool)

  /** The worker running one task per step. */
  function Run(s: Service, steps: seq<Step>): Service
    decreases |steps|
  {
    if steps == [] then s else Run(RunNext(s, steps[0].stamp, steps[0].ioOk), steps[1..])
  }

  /** The lines a run of Write tasks appends: those whose step did not fail, in order. */
  function Written(tasks: seq<Task>, steps: seq<Step>): seq<string>
    requires |tasks| == |steps|
  {
    if tasks == [] then []
    else (if tasks[0].Write? && steps[0].ioOk then [tasks[0].line] else []) + Written(tasks[1..], steps[1..])
  }

  // ---------------------------------------------------------------------------
  // The invariant every state the service reaches satisfies.

  /** A log file: the header first, and every line one seven-column record. */
  predicate IsLog(lines: seq<string>) {
    |lines| > 0 && lines[0] == Header && forall i :: 0 <= i < |lines| ==> IsRecord(lines[i])
  }

  predicate Consistent(s: Service) {
    && (s.writer.Some? ==> s.writer.value in s.disk)
    && (forall f :: f in s.disk ==> f in s.files)
    && (forall i :: 0 <= i < |s.files| ==> s.files[i] in s.disk)
    && (forall f :: f in s.disk ==> IsLog(s.disk[f]))
    && (forall i :: 0 <= i < |s.leaked| ==> s.leaked[i] in s.disk)
    && (forall i :: 0 <= i < |s.queue| ==> s.queue[i].Write? ==> IsRecord(s.queue[i].line))
    && (s.shutDown ==> s.queue == [])
  }

  lemma {:induction false} CreatedConsistent(running: bool, persisted: bool)
    ensures Consistent(Created(running, persisted))
    ensures Created(running, persisted).running == running && Created(running, persisted).persisted == persisted
    ensures Created(running, persisted).writer.None? && Created(running, persisted).queue == []
  {
  }

  lemma {:induction false} SubmitKeepsConsistent(s: Service, t: Task)
    requires Consistent(s)
    requires t.Write? ==> IsRecord(t.line)
    ensures Consistent(Submit(s, t))
  {
  }

  lemma {:induction false} StartKeepsConsistent(s: Service, motion: Motion, perm: Permissions)
    requires Consistent(s)
    ensures Consistent(Start(s, motion, perm))
  {
    SubmitKeepsConsistent(s, OpenFile);
  }

  lemma {:induction false} StopKeepsConsistent(s: Service)
    requires Consistent(s)
    ensures Consistent(Stop(s)) && Consistent(Destroy(s)) && Consistent(Shutdown(s))
  {
    SubmitKeepsConsistent(s.(running := false, registered := {}), Close);
  }

  lemma {:induction false} SensorChangedKeepsConsistent(s: Service, event: Option<SensorEvent>, now: nat)
    requires Consistent(s)
    ensures Consistent(SensorChanged(s, event, now))
  {
    if s.writer.Some? && IsComplete(event) {
      var e := event.value;
      SensorLineColumns(now, e.sensor.value.sensorType, e.values.value);
      SubmitKeepsConsistent(s, Write(SensorLine(now, e.sensor.value.sensorType, e.values.value)));
    }
  }

  lemma {:induction false} LocationWrittenKeepsConsistent(s: Service, location: Option<Location>, now: nat)
    requires Consistent(s)
    ensures Consistent(LocationWritten(s, location, now))
  {
    if location.Some? {
      var loc := location.value;
      LocationLineColumns(now, loc.latitude, loc.longitude);
      SubmitKeepsConsistent(s, Write(LocationLine(now, loc.latitude, loc.longitude)));
    }
  }

  lemma {:induction false} LocationResultKeepsConsistent(s: Service, locations: seq<Option<Location>>, clock: seq<nat>)
    requires Consistent(s)
    requires |clock| == |locations|
    ensures Consistent(LocationResult(s, locations, clock))
    decreases |locations|
  {
    if locations != [] {
      var n := |locations| - 1;
      LocationResultKeepsConsistent(s, locations[..n], clock[..n]);
      LocationWrittenKeepsConsistent(LocationResult(s, locations[..n], clock[..n]), locations[n], clock[n]);
    }
  }

  lemma {:induction false} RunNextKeepsConsistent(s: Service, stamp: string, ioOk: bool)
    requires Consistent(s)
    ensures Consistent(RunNext(s, stamp, ioOk))
  {
    if s.queue != [] {
      match s.queue[0]
      case OpenFile => OpenKeepsConsistent(s, stamp, ioOk);
      case Write(line) => WriteKeepsConsistent(s, stamp, ioOk);
      case Close =>
    }
  }

  lemma {:induction false} OpenKeepsConsistent(s: Service, stamp: string, ioOk: bool)
    requires Consistent(s) && s.queue != [] && s.queue[0] == OpenFile
    ensures Consistent(RunNext(s, stamp, ioOk))
  {
    HeaderColumns();
    assert IsLog([Header]);
  }

  lemma {:induction false} WriteKeepsConsistent(s: Service, stamp: string, ioOk: bool)
    requires Consistent(s) && s.queue != [] && s.queue[0].Write?
    ensures Consistent(RunNext(s, stamp, ioOk))
  {
    assert IsRecord(s.queue[0].line);
    if s.writer.Some? && ioOk {
      var f := s.writer.value;
      var r := RunNext(s, stamp, ioOk);
      assert IsLog(s.disk[f]);
      assert r.disk[f] == s.disk[f] + [s.queue[0].line];
      assert IsLog(r.disk[f]);
    }
  }

  // ---------------------------------------------------------------------------
  // What the callbacks do.

  /**
    Start queues exactly one OpenFile, marks the service running in memory and
    in the preferences, sends exactly one RECORDING_STARTED, and registers the
    motion sensors the device has and location updates exactly when a location
    permission is granted; the session starts whether or not location was
    registered. The writer is not touched until the OpenFile task runs.
   */
  lemma {:induction false} StartEffects(s: Service, motion: Motion, perm: Permissions)
    requires !s.shutDown
    ensures var r := Start(s, motion, perm);
      && r.queue == s.queue + [OpenFile]
      && r.running && r.persisted
      && r.broadcasts == s.broadcasts + [RecordingStarted]
      && s.registered <= r.registered
      && (AccelerometerListener in r.registered - s.registered ==> motion.hasAccelerometer)
      && (motion.hasAccelerometer ==> AccelerometerListener in r.registered)
      && (GyroscopeListener in r.registered - s.registered ==> motion.hasGyroscope)
      && (motion.hasGyroscope ==> GyroscopeListener in r.registered)
      && (LocationUpdates in r.registered - s.registered ==> perm.fine || perm.coarse)
      && (perm.fine || perm.coarse ==> LocationUpdates in r.registered)
      && r.writer == s.writer && r.disk == s.disk && r.files == s.files && r.leaked == s.leaked
  {
  }

  /**
    Stop clears sIsRunning, drops every registration, and only then queues
    Close behind everything already queued; it sends RECORDING_STOPPED and
    persists is_recording = false. The file stays open until Close runs.
   */
  lemma {:induction false} StopEffects(s: Service)
    requires !s.shutDown
    ensures var r := Stop(s);
      && r.queue == s.queue + [Close]
      && !r.running && !r.persisted && r.registered == {}
      && r.broadcasts == s.broadcasts + [RecordingStopped]
      && r.writer == s.writer && r.disk == s.disk && r.files == s.files && r.leaked == s.leaked
  {
  }

  /** Nothing guards stop: stopping twice sends RECORDING_STOPPED twice and queues two Close tasks. */
  lemma {:induction false} DoubleStop(s: Service)
    requires !s.shutDown
    ensures Stop(Stop(s)).broadcasts == s.broadcasts + [RecordingStopped, RecordingStopped]
    ensures Stop(Stop(s)).queue == s.queue + [Close, Close]
  {
  }

  /**
    onStartCommand takes the stop path exactly for an intent whose action is
    ACTION_STOP; a null intent, an intent without action, ACTION_START or any
    other action take the start path.
   */
  lemma {:induction false} Dispatch(s: Service, intent: Option<Intent>, motion: Motion, perm: Permissions)
    ensures IsStopIntent(intent) <==> intent == Some(Intent(Some(ACTION_STOP)))
    ensures IsStopIntent(intent) ==> StartCommand(s, intent, motion, perm) == Stop(s)
    ensures !IsStopIntent(intent) ==> StartCommand(s, intent, motion, perm) == Start(s, motion, perm)
    ensures !IsStopIntent(None) && !IsStopIntent(Some(Intent(None)))
    ensures !IsStopIntent(Some(Intent(Some(ACTION_START))))
  {
    assert ACTION_START != ACTION_STOP by {
      assert |ACTION_START| != |ACTION_STOP|;
    }
  }

  /** The stop path never starts: nothing is running afterwards and no RECORDING_STARTED is sent. */
  lemma {:induction false} StopPathDoesNotStart(s: Service, motion: Motion, perm: Permissions)
    requires !s.shutDown
    ensures var r := StartCommand(s, Some(Intent(Some(ACTION_STOP))), motion, perm);
      !r.running && r.broadcasts == s.broadcasts + [RecordingStopped]
  {
  }

  /**
    A sensor event queues nothing exactly when the writer is null, the event,
    its sensor or its values are null, or the executor is shut down; otherwise
    it queues the one sensor line for it.
   */
  lemma {:induction false} SensorEventDropped(s: Service, event: Option<SensorEvent>, now: nat)
    ensures SensorChanged(s, event, now) == s <==> (s.writer.None? || !IsComplete(event) || s.shutDown)
    ensures SensorChanged(s, event, now) != s ==>
      SensorChanged(s, event, now)
        == s.(queue := s.queue + [Write(SensorLine(now, event.value.sensor.value.sensorType, event.value.values.value))])
  {
    if s.writer.Some? && IsComplete(event) && !s.shutDown {
      assert |SensorChanged(s, event, now).queue| == |s.queue| + 1;
    }
  }

  lemma {:induction false} LocationTasksAppend(locations: seq<Option<Location>>, clock: seq<nat>)
    requires |clock| == |locations| > 0
    ensures var n := |locations| - 1;
      LocationTasks(locations, clock)
        == LocationTasks(locations[..n], clock[..n]) + LocationTasks([locations[n]], [clock[n]])
    decreases |locations|
  {
    var n := |locations| - 1;
    if n > 0 {
      LocationTasksAppend(locations[1..], clock[1..]);
      assert locations[1..][..n - 1] == locations[..n][1..];
      assert clock[1..][..n - 1] == clock[..n][1..];
      assert locations[1..][n - 1] == locations[n] && clock[1..][n - 1] == clock[n];
    } else {
      assert locations[..n] == [] && clock[..n] == [];
      assert locations == [locations[n]] && clock == [clock[n]];
    }
  }

  /**
    onLocationResult queues one Write per non-null fix, in list order, each
    with the location line for its own clock reading; null fixes are skipped.
    It queues them whether or not a file is open, and changes nothing else.
   */
  lemma {:induction false} LocationResultInOrder(s: Service, locations: seq<Option<Location>>, clock: seq<nat>)
    requires |clock| == |locations|
    requires !s.shutDown
    ensures LocationResult(s, locations, clock) == s.(queue := s.queue + LocationTasks(locations, clock))
    decreases |locations|
  {
    if locations == [] {
      assert s.queue + [] == s.queue;
    } else {
      var n := |locations| - 1;
      LocationResultInOrder(s, locations[..n], clock[..n]);
      LocationTasksAppend(locations, clock);
      var last := LocationTasks([locations[n]], [clock[n]]);
      assert last == match locations[n]
        case None => []
        case Some(loc) => [Write(LocationLine(clock[n], loc.latitude, loc.longitude))];
      assert s.queue + LocationTasks(locations, clock)
          == (s.queue + LocationTasks(locations[..n], clock[..n])) + last;
    }
  }

  /**
    Running OpenFile creates (or truncates) sensor_data_<stamp>.csv holding
    just the header and makes it the writer's file; a writer that was still
    open is replaced without being closed. When the file cannot be created
    nothing but the queue changes: the writer stays as it was (null after a
    stop, so every later Write is dropped).
   */
  lemma {:induction false} OpenTask(s: Service, stamp: string, ioOk: bool)
    requires s.queue != [] && s.queue[0] == OpenFile
    ensures var r := RunNext(s, stamp, ioOk);
      && r.queue == s.queue[1..]
      && (ioOk ==>
          && r.writer == Some(FileName(stamp))
          && r.disk == s.disk[FileName(stamp) := [Header]]
          && Columns(r.disk[FileName(stamp)][0]) == ColumnNames
          && r.files == s.files + [FileName(stamp)]
          && r.leaked == s.leaked + (if s.writer.Some? then [s.writer.value] else []))
      && (!ioOk ==> r == s.(queue := s.queue[1..]))
  {
    HeaderColumns();
  }

  /** A Write that runs while the writer is null changes nothing but the queue. */
  lemma {:induction false} WriteToNullWriterDropped(s: Service, stamp: string, ioOk: bool)
    requires s.queue != [] && s.queue[0].Write?
    requires s.writer.None?
    ensures RunNext(s, stamp, ioOk) == s.(queue := s.queue[1..])
  {
  }

  /**
    Close with no open writer changes nothing but the queue; otherwise a
    successful Close leaves the writer null. Files are never changed by it,
    so running Close twice is as harmless as running it once.
   */
  lemma {:induction false} CloseTask(s: Service, stamp: string, ioOk: bool)
    requires s.queue != [] && s.queue[0] == Close
    ensures var r := RunNext(s, stamp, ioOk);
      && r.disk == s.disk && r.queue == s.queue[1..]
      && (s.writer.None? ==> r == s.(queue := s.queue[1..]))
      && (ioOk ==> r.writer.None?)
      && (!ioOk ==> r.writer == s.writer)
  {
  }

  lemma {:induction false} CloseTwice(s: Service, first: Step, second: Step)
    requires |s.queue| >= 2 && s.queue[0] == Close && s.queue[1] == Close
    requires first.ioOk
    ensures var r := Run(s, [first, second]);
      r.writer.None? && r.disk == s.disk && r.queue == s.queue[2..]
  {
    var r1 := RunNext(s, first.stamp, first.ioOk);
    assert r1.writer.None? && r1.disk == s.disk && r1.queue == s.queue[1..];
    assert r1.queue[0] == Close;
    var r2 := RunNext(r1, second.stamp, second.ioOk);
    assert r2 == r1.(queue := r1.queue[1..]);
    assert [first, second][1..] == [second];
    assert Run(s, [first, second]) == Run(r1, [second]);
    assert Run(r1, [second]) == Run(r2, []) == r2;
  }

  /** Running one Write while the writer is open on `f`. */
  lemma {:induction false} RunWrite(s: Service, step: Step, f: string)
    requires s.writer == Some(f) && f in s.disk
    requires s.queue != [] && s.queue[0].Write?
    ensures RunNext(s, step.stamp, step.ioOk)
         == s.(queue := s.queue[1..],
               disk := s.disk[f := s.disk[f] + (if step.ioOk then [s.queue[0].line] else [])])
  {
    if !step.ioOk {
      assert s.disk[f] + [] == s.disk[f];
      assert s.disk[f := s.disk[f]] == s.disk;
    }
  }

  lemma {:induction false} WrittenFirst(tasks: seq<Task>, steps: seq<Step>)
    requires |tasks| == |steps| > 0
    ensures Written(tasks, steps)
         == (if tasks[0].Write? && steps[0].ioOk then [tasks[0].line] else []) + Written(tasks[1..], steps[1..])
  {
  }

  /**
    Write order: when the queue starts with Write tasks and a file is open,
    running them appends their lines to that file in queue order, each failed
    write dropping only its own line and not stopping the ones after it.
   */
  lemma {:induction false} DrainWrites(s: Service, steps: seq<Step>, f: string)
    requires s.writer == Some(f) && f in s.disk
    requires |steps| <= |s.queue|
    requires forall i :: 0 <= i < |steps| ==> s.queue[i].Write?
    ensures Run(s, steps)
         == s.(queue := s.queue[|steps|..], disk := s.disk[f := s.disk[f] + Written(s.queue[..|steps|], steps)])
    decreases |steps|
  {
    var n := |steps|;
    if n == 0 {
      assert s.queue[0..] == s.queue;
      assert s.disk[f] + [] == s.disk[f];
      assert s.disk[f := s.disk[f]] == s.disk;
    } else {
      var head := if steps[0].ioOk then [s.queue[0].line] else [];
      var s' := s.(queue := s.queue[1..], disk := s.disk[f := s.disk[f] + head]);
      RunWrite(s, steps[0], f);
      assert Run(s, steps) == Run(s', steps[1..]);
      DropOne(s.queue, n);
      DrainWrites(s', steps[1..], f);
      var w := Written(s'.queue[..n - 1], steps[1..]);
      WrittenFirst(s.queue[..n], steps);
      AppendInTwo(s.disk, f, head, w);
    }
  }

  lemma DropOne(q: seq<Task>, n: nat)
    requires 0 < n <= |q|
    ensures q[1..][n - 1..] == q[n..] && q[1..][..n - 1] == q[..n][1..]
    ensures forall i :: 0 <= i < n - 1 ==> q[1..][i] == q[i + 1]
  {
  }

  lemma AppendInTwo(disk: map<string, seq<string>>, f: string, head: seq<string>, w: seq<string>)
    requires f in disk
    ensures disk[f := disk[f] + head][f := disk[f := disk[f] + head][f] + w] == disk[f := disk[f] + (head + w)]
  {
    assert (disk[f] + head) + w == disk[f] + (head + w);
  }

  lemma {:induction false} RunAppend(s: Service, a: seq<Step>, b: seq<Step>)
    ensures Run(s, a + b) == Run(Run(s, a), b)
    decreases |a|
  {
    if a == [] {
      assert a + b == b;
    } else {
      assert (a + b)[0] == a[0] && (a + b)[1..] == a[1..] + b;
      RunAppend(RunNext(s, a[0].stamp, a[0].ioOk), a[1..], b);
    }
  }

  /** The worker touches only the writer, the files and the queue. */
  lemma {:induction false} RunPreservesFlags(s: Service, steps: seq<Step>)
    ensures var r := Run(s, steps);
      && r.running == s.running && r.persisted == s.persisted
      && r.registered == s.registered && r.broadcasts == s.broadcasts && r.shutDown == s.shutDown
    decreases |steps|
  {
    if steps != [] {
      RunPreservesFlags(RunNext(s, steps[0].stamp, steps[0].ioOk), steps[1..]);
    }
  }

  /** The worker only takes tasks from the head: running some of them pops exactly that many. */
  lemma {:induction false} RunPops(s: Service, steps: seq<Step>)
    requires |steps| <= |s.queue|
    ensures Run(s, steps).queue == s.queue[|steps|..]
    decreases |steps|
  {
    if steps != [] {
      var s' := RunNext(s, steps[0].stamp, steps[0].ioOk);
      RunPops(s', steps[1..]);
      assert s.queue[1..][|steps| - 1..] == s.queue[|steps|..];
    }
  }

  lemma {:induction false} RunNextStop(s: Service, stamp: string, ioOk: bool)
    requires !s.shutDown && s.queue != []
    ensures RunNext(Stop(s), stamp, ioOk) == Stop(RunNext(s, stamp, ioOk))
  {
    assert Stop(s).queue[0] == s.queue[0];
    assert Stop(s).queue[1..] == s.queue[1..] + [Close];
  }

  /**
    FIFO: the Close that stop queues waits behind every task queued before it.
    Running at most as many tasks as were pending gives the state that running
    them first and stopping afterwards gives, whatever the tasks are and
    whichever of them fail; once all have run, only stop's Close is left.
   */
  lemma {:induction false} StopCommutesWithRun(s: Service, steps: seq<Step>)
    requires !s.shutDown && |steps| <= |s.queue|
    ensures Run(Stop(s), steps) == Stop(Run(s, steps))
    ensures Run(Stop(s), steps).queue == s.queue[|steps|..] + [Close]
    decreases |steps|
  {
    if steps != [] {
      RunNextStop(s, steps[0].stamp, steps[0].ioOk);
      var s' := RunNext(s, steps[0].stamp, steps[0].ioOk);
      assert !s'.shutDown && s'.queue == s.queue[1..];
      StopCommutesWithRun(s', steps[1..]);
    }
    RunPops(s, steps);
    RunPreservesFlags(s, steps);
  }

  /**
    Graceful drain: every Write queued before stop reaches the open file, in
    queue order, before the Close that stop queued runs; once it has run the
    file is closed and the queue is empty.
   */
  lemma {:induction false} StopDrainsWritesBeforeClose(s: Service, steps: seq<Step>, f: string)
    requires s.writer == Some(f) && f in s.disk && !s.shutDown
    requires forall i :: 0 <= i < |s.queue| ==> s.queue[i].Write?
    requires |steps| == |s.queue| + 1 && steps[|s.queue|].ioOk
    ensures var r := Run(Stop(s), steps);
      && r.writer.None? && r.queue == []
      && r.disk == s.disk[f := s.disk[f] + Written(s.queue, steps[..|s.queue|])]
  {
    var n := |s.queue|;
    assert steps == steps[..n] + [steps[n]];
    RunAppend(Stop(s), steps[..n], [steps[n]]);
    StopCommutesWithRun(s, steps[..n]);
    DrainWrites(s, steps[..n], f);
    assert s.queue[..n] == s.queue;
    var stopped := Run(Stop(s), steps[..n]);
    assert stopped.queue == [Close];
    assert stopped.writer == Some(f);
    assert Run(stopped, [steps[n]]) == RunNext(stopped, steps[n].stamp, steps[n].ioOk);
  }

  /**
    onDestroy when shutdownNow comes before the worker takes anything: the
    Close the stop path just queued is dropped with every other pending task,
    so a file still open stays open, and nothing is queued or run afterwards.
   */
  lemma {:induction false} DestroyDropsPendingTasks(s: Service, t: Task, stamp: string, ioOk: bool)
    ensures var r := Destroy(s);
      && r.queue == [] && r.writer == s.writer && r.disk == s.disk
      && !r.running && !r.persisted && r.registered == {}
      && r.broadcasts == s.broadcasts + [RecordingStopped]
      && Submit(r, t) == r && RunNext(r, stamp, ioOk) == r
  {
  }

  /**
    The other outcome of onDestroy: the idle worker takes the Close that the
    stop path queued before shutdownNow runs, and the file gets closed.
   */
  lemma {:induction false} DestroyAfterWorkerTakesClose(s: Service, step: Step)
    requires !s.shutDown && s.queue == [] && s.writer.Some? && step.ioOk
    ensures var r := Shutdown(RunNext(Stop(s), step.stamp, step.ioOk));
      && r.writer.None? && r.disk == s.disk && r.queue == [] && r.shutDown
      && r.broadcasts == s.broadcasts + [RecordingStopped]
  {
    assert Stop(s).queue == [Close];
  }

  // ---------------------------------------------------------------------------
  // Whole runs.

  /**
    Two starts without a stop between them: both OpenFile tasks run, the
    second replaces the first writer without closing it, and a stop then
    closes only the second file. Two RECORDING_STARTED broadcasts are sent.
    When both tasks read the same one-second stamp (a == b), the second open
    truncates the same file again: one file, opened twice.
   */
  lemma {:induction false} DoubleStartLeaksWriter(motion: Motion, perm: Permissions, a: string, b: string, persisted: bool)
    ensures var started := Start(Start(Created(false, persisted), motion, perm), motion, perm);
      var afterOpen := Run(started, [Step(a, true), Step(b, true)]);
      var closed := Run(Stop(afterOpen), [Step(b, true)]);
      && started.broadcasts == [RecordingStarted, RecordingStarted]
      && afterOpen.writer == Some(FileName(b))
      && afterOpen.files == [FileName(a), FileName(b)]
      && afterOpen.leaked == [FileName(a)]
      && afterOpen.disk == map[FileName(a) := [Header]][FileName(b) := [Header]]
      && (a == b ==> afterOpen.disk == map[FileName(a) := [Header]])
      && closed.writer.None? && closed.leaked == [FileName(a)]
  {
    var started := Start(Start(Created(false, persisted), motion, perm), motion, perm);
    assert started.queue == [OpenFile, OpenFile];
    var o1 := RunNext(started, a, true);
    assert o1.writer == Some(FileName(a)) && o1.queue == [OpenFile];
    var o2 := RunNext(o1, b, true);
    assert o2.writer == Some(FileName(b)) && o2.queue == [] && o2.leaked == [FileName(a)];
    assert [Step(a, true), Step(b, true)][1..] == [Step(b, true)];
    assert Run(started, [Step(a, true), Step(b, true)]) == Run(o1, [Step(b, true)]);
    assert Run(o1, [Step(b, true)]) == Run(o2, []) == o2;
    var stopped := Stop(o2);
    assert stopped.queue == [Close];
    var c := RunNext(stopped, b, true);
    assert c.writer.None? && c.leaked == [FileName(a)];
    assert Run(stopped, [Step(b, true)]) == Run(c, []) == c;
  }

  /**
    On the first start of a service instance (no writer yet), a sensor event
    that arrives before the OpenFile task has run is dropped.
   */
  lemma {:induction false} EventBeforeOpenDropped(running: bool, persisted: bool, motion: Motion, perm: Permissions,
                                                  event: Option<SensorEvent>, now: nat)
    ensures var started := Start(Created(running, persisted), motion, perm);
      SensorChanged(started, event, now) == started
  {
  }

  /**
    A second start while the first file is still open: the writer is not null,
    so an event that arrives before the second OpenFile has run is queued
    behind it, and its line goes to the second file. The first file keeps its
    lines only when the second open reads a different stamp; in the same
    second the two names coincide (SecondStartInSameSecond).
   */
  lemma {:induction false} EventDuringSecondStart(s: Service, motion: Motion, perm: Permissions,
                                                  event: Option<SensorEvent>, now: nat, stamp: string)
    requires s.writer.Some? && s.writer.value in s.disk && s.queue == [] && !s.shutDown
    requires IsComplete(event)
    ensures var line := SensorLine(now, event.value.sensor.value.sensorType, event.value.values.value);
      var queued := SensorChanged(Start(s, motion, perm), event, now);
      var r := Run(queued, [Step(stamp, true), Step(stamp, true)]);
      && queued.queue == [OpenFile, Write(line)]
      && r.writer == Some(FileName(stamp))
      && r.leaked == s.leaked + [s.writer.value]
      && r.disk == s.disk[FileName(stamp) := [Header, line]]
      && FileName(stamp) in r.disk && s.writer.value in r.disk
      && r.disk[FileName(stamp)] == [Header, line]
      && (s.writer.value != FileName(stamp) ==> r.disk[s.writer.value] == s.disk[s.writer.value])
  {
    var line := SensorLine(now, event.value.sensor.value.sensorType, event.value.values.value);
    var queued := SensorChanged(Start(s, motion, perm), event, now);
    assert queued.queue == [OpenFile, Write(line)];
    var o := RunNext(queued, stamp, true);
    assert o.writer == Some(FileName(stamp)) && o.queue == [Write(line)];
    var w := RunNext(o, stamp, true);
    assert w.disk[FileName(stamp)] == [Header, line];
    assert [Step(stamp, true), Step(stamp, true)][1..] == [Step(stamp, true)];
    assert Run(queued, [Step(stamp, true), Step(stamp, true)]) == Run(o, [Step(stamp, true)]);
    assert Run(o, [Step(stamp, true)]) == Run(w, []) == w;
  }

  /**
    A second start within the same second as the first open: the date stamp
    has one-second resolution, so the second OpenFile names the file that is
    already open, new FileWriter truncates it, and every line recorded so far
    is lost. The old writer, still open on that file, is leaked.
   */
  lemma {:induction false} SecondStartInSameSecond(s: Service, motion: Motion, perm: Permissions,
                                                   event: Option<SensorEvent>, now: nat, stamp: string)
    requires s.writer == Some(FileName(stamp)) && FileName(stamp) in s.disk && s.queue == [] && !s.shutDown
    requires IsComplete(event)
    ensures var line := SensorLine(now, event.value.sensor.value.sensorType, event.value.values.value);
      var r := Run(SensorChanged(Start(s, motion, perm), event, now), [Step(stamp, true), Step(stamp, true)]);
      && r.writer == s.writer
      && r.leaked == s.leaked + [FileName(stamp)]
      && FileName(stamp) in r.disk
      && r.disk[FileName(stamp)] == [Header, line]
      && (forall l :: l in s.disk[FileName(stamp)] && l != Header && l != line ==> l !in r.disk[FileName(stamp)])
  {
    EventDuringSecondStart(s, motion, perm, event, now, stamp);
  }

  /** The reference session's accelerometer reading and location fix. */
  const ReferenceValues: seq<Rendering> := ["0.1", "0.2", "9.8"]
  const ReferenceFix: Location := Location("37.0", "-122.0")

  /** The reference session up to its stop: started, file opened, one reading and one fix received. */
  function ReferenceRecording(stamp: string): Service {
    var s1 := Start(Created(false, false), Motion(true, true), Permissions(true, false));
    var s2 := RunNext(s1, stamp, true);
    var s3 := SensorChanged(s2, Some(SensorEvent(Some(Sensor(TYPE_ACCELEROMETER)), Some(ReferenceValues))), 1000);
    LocationResult(s3, [Some(ReferenceFix)], [1500])
  }

  lemma {:induction false} ReferenceRecordingQueue(stamp: string)
    ensures var s := ReferenceRecording(stamp);
      && s.writer == Some(FileName(stamp)) && s.disk == map[FileName(stamp) := [Header]] && !s.shutDown
      && s.queue == [Write("1000,Accelerometer,0.1,0.2,9.8,,\n"), Write("1500,Location,,,,37.0,-122.0\n")]
      && s.broadcasts == [RecordingStarted]
  {
    var s1 := Start(Created(false, false), Motion(true, true), Permissions(true, false));
    var s2 := RunNext(s1, stamp, true);
    var f := FileName(stamp);
    assert s2 == s1.(queue := [], writer := Some(f), disk := map[f := [Header]], files := [f]);
    var s3 := SensorChanged(s2, Some(SensorEvent(Some(Sensor(TYPE_ACCELEROMETER)), Some(ReferenceValues))), 1000);
    ScenarioSensorLine();
    assert s3 == s2.(queue := [Write("1000,Accelerometer,0.1,0.2,9.8,,\n")]);
    var locations := [Some(ReferenceFix)];
    LocationResultInOrder(s3, locations, [1500]);
    ScenarioLocationLine();
    assert LocationTasks(locations, [1500]) == [Write("1500,Location,,,,37.0,-122.0\n")];
  }

  /** A session whose file holds just the header and that has two lines queued: stop and drain. */
  lemma {:induction false} StopAfterTwoWrites(s: Service, f: string, l1: string, l2: string, stamp: string)
    requires s.writer == Some(f) && s.disk == map[f := [Header]] && !s.shutDown
    requires s.queue == [Write(l1), Write(l2)]
    ensures var r := Run(Stop(s), [Step(stamp, true), Step(stamp, true), Step(stamp, true)]);
      && r.disk == map[f := [Header, l1, l2]]
      && r.writer.None? && r.queue == [] && !r.persisted && !r.running
      && r.broadcasts == s.broadcasts + [RecordingStopped]
  {
    var steps := [Step(stamp, true), Step(stamp, true), Step(stamp, true)];
    StopDrainsWritesBeforeClose(s, steps, f);
    assert steps[..2] == [Step(stamp, true), Step(stamp, true)];
    assert Written(s.queue, steps[..2]) == [l1, l2] by {
      WrittenFirst(s.queue, steps[..2]);
      WrittenFirst(s.queue[1..], steps[..2][1..]);
    }
    assert [Header] + [l1, l2] == [Header, l1, l2];
    assert map[f := [Header]][f := [Header, l1, l2]] == map[f := [Header, l1, l2]];
    StopEffects(s);
    RunPreservesFlags(Stop(s), steps);
  }

  /** The intent the activity and the notification send to stop recording. */
  const StopIntent: Option<Intent> := Some(Intent(Some(ACTION_STOP)))

  /** The reference session's stop request: onStartCommand with the stop intent. */
  function ReferenceStop(stamp: string): Service {
    StartCommand(ReferenceRecording(stamp), StopIntent, Motion(true, true), Permissions(true, false))
  }

  /**
    The reference session as the app ends it: start, the file opens, one
    accelerometer reading at t=1000 and one fix at t=1500 arrive, the stop
    intent arrives, the worker drains the queue, and the platform then calls
    onDestroy (stopSelf). The file holds the header and the two lines and is
    closed; onDestroy sends a second RECORDING_STOPPED and its Close is dropped.
   */
  lemma {:induction false} ReferenceSession(stamp: string)
    ensures var drained := Run(ReferenceStop(stamp), [Step(stamp, true), Step(stamp, true), Step(stamp, true)]);
      var s := Destroy(drained);
      && drained.disk == map[FileName(stamp) := [Header, "1000,Accelerometer,0.1,0.2,9.8,,\n", "1500,Location,,,,37.0,-122.0\n"]]
      && drained.writer.None? && drained.queue == []
      && s.disk == drained.disk && s.writer.None? && s.queue == [] && s.shutDown
      && !s.persisted && !s.running
      && s.broadcasts == [RecordingStarted, RecordingStopped, RecordingStopped]
  {
    ReferenceRecordingQueue(stamp);
    Dispatch(ReferenceRecording(stamp), StopIntent, Motion(true, true), Permissions(true, false));
    StopAfterTwoWrites(ReferenceRecording(stamp), FileName(stamp), "1000,Accelerometer,0.1,0.2,9.8,,\n",
                       "1500,Location,,,,37.0,-122.0\n", stamp);
  }

  /**
    The same session when onDestroy comes before the worker has drained the
    queue: the two lines and the Close are dropped, so the file holds only the
    header and its writer is never closed.
   */
  lemma {:induction false} ReferenceDestroyBeforeDrain(stamp: string)
    ensures var s := Destroy(ReferenceStop(stamp));
      && s.disk == map[FileName(stamp) := [Header]]
      && s.writer == Some(FileName(stamp)) && s.queue == [] && s.shutDown
      && s.broadcasts == [RecordingStarted, RecordingStopped, RecordingStopped]
  {
    ReferenceRecordingQueue(stamp);
    Dispatch(ReferenceRecording(stamp), StopIntent, Motion(true, true), Permissions(true, false));
  }

  // ---------------------------------------------------------------------------
  // The service object.

  class RecordingService {
    /** accelerometer != null and gyroscope != null after onCreate. */
    const accelerometerPresent: bool
    const gyroscopePresent: bool

    var bufferedWriter: Option<string>
    var disk: map<string, seq<string>>
    var files: seq<string>
    var leaked: seq<string>
    /** The tasks pending on ioExecutor. */
    var pending: seq<Task>
    var executorShutDown: bool
    /** The static sIsRunning flag. */
    var isRunning: bool
    /** "is_recording" in the app_prefs preferences. */
    var isRecordingPref: bool
    var registered: set<Source>
    var broadcasts: seq<Broadcast>

    function State(): Service
      reads this
    {
      Service(bufferedWriter, disk, files, leaked, pending, executorShutDown,
              isRunning, isRecordingPref, registered, broadcasts)
    }

    function Sensors(): Motion {
      Motion(accelerometerPresent, gyroscopePresent)
    }

    predicate Valid()
      reads this
    {
      Consistent(State())
    }

    /** onCreate: look up the sensors; sIsRunning and the persisted flag are left as they were. */
    constructor (hasAccelerometer: bool, hasGyroscope: bool, runningFlag: bool, persistedRecording: bool)
      ensures Valid()
      ensures State() == Created(runningFlag, persistedRecording)
      ensures Sensors() == Motion(hasAccelerometer, hasGyroscope)
    {
      accelerometerPresent, gyroscopePresent := hasAccelerometer, hasGyroscope;
      bufferedWriter, disk, files, leaked := None, map[], [], [];
      pending, executorShutDown := [], false;
      isRunning, isRecordingPref := runningFlag, persistedRecording;
      registered, broadcasts := {}, [];
    }

    /** ioExecutor.execute(task). */
    method Execute(task: Task)
      requires Valid()
      requires task.Write? ==> IsRecord(task.line)
      modifies this
      ensures Valid()
      ensures State() == Submit(old(State()), task)
    {
      if !executorShutDown {
        pending := pending + [task];
      }
      SubmitKeepsConsistent(old(State()), task);
    }

    method StartRecordingInternal(perm: Permissions)
      requires Valid()
      modifies this
      ensures Valid()
      ensures State() == Start(old(State()), Sensors(), perm)
    {
      Execute(OpenFile);
      ghost var queued := State();
      isRunning := true;
      isRecordingPref := true;
      if accelerometerPresent {
        registered := registered + {AccelerometerListener};
      }
      if gyroscopePresent {
        registered := registered + {GyroscopeListener};
      }
      if perm.fine || perm.coarse {
        registered := registered + {LocationUpdates};
      }
      broadcasts := broadcasts + [RecordingStarted];
      assert registered == queued.registered + Available(Sensors(), perm);
      assert State() == queued.(running := true, persisted := true,
                                registered := queued.registered + Available(Sensors(), perm),
                                broadcasts := queued.broadcasts + [RecordingStarted]);
      StartKeepsConsistent(old(State()), Sensors(), perm);
    }

    method StopRecordingInternal()
      requires Valid()
      modifies this
      ensures Valid()
      ensures State() == Stop(old(State()))
    {
      isRunning := false;
      registered := {};
      ghost var cleared := State();
      assert cleared == old(State()).(running := false, registered := {});
      Execute(Close);
      ghost var queued := State();
      broadcasts := broadcasts + [RecordingStopped];
      isRecordingPref := false;
      assert State() == queued.(broadcasts := queued.broadcasts + [RecordingStopped], persisted := false);
      StopKeepsConsistent(old(State()));
    }

    method OnStartCommand(intent: Option<Intent>, perm: Permissions) returns (r: int)
      requires Valid()
      modifies this
      ensures Valid()
      ensures State() == StartCommand(old(State()), intent, Sensors(), perm)
      ensures r == START_NOT_STICKY
    {
      if intent.Some? && intent.value.action == Some(ACTION_STOP) {
        StopRecordingInternal();
        return START_NOT_STICKY;
      }
      StartRecordingInternal(perm);
      return START_NOT_STICKY;
    }

    method OnDestroy()
      requires Valid()
      modifies this
      ensures Valid()
      ensures State() == Destroy(old(State()))
    {
      StopRecordingInternal();
      ShutdownNow();
    }

    /** ioExecutor.shutdownNow(). */
    method ShutdownNow()
      requires Valid()
      modifies this
      ensures Valid()
      ensures State() == Shutdown(old(State()))
    {
      pending := [];
      executorShutDown := true;
      StopKeepsConsistent(old(State()));
    }

    method OnSensorChanged(event: Option<SensorEvent>, now: nat)
      requires Valid()
      modifies this
      ensures Valid()
      ensures State() == SensorChanged(old(State()), event, now)
    {
      if bufferedWriter.None? {
        return;
      }
      if event.None? || event.value.sensor.None? || event.value.values.None? {
        return;
      }
      var e := event.value;
      var line := SensorLine(now, e.sensor.value.sensorType, e.values.value);
      SensorLineColumns(now, e.sensor.value.sensorType, e.values.value);
      WriteToFile(line);
    }

    method WriteLocation(location: Option<Location>, now: nat)
      requires Valid()
      modifies this
      ensures Valid()
      ensures State() == LocationWritten(old(State()), location, now)
    {
      if location.None? {
        return;
      }
      var line := LocationLine(now, location.value.latitude, location.value.longitude);
      LocationLineColumns(now, location.value.latitude, location.value.longitude);
      WriteToFile(line);
    }

    method WriteToFile(line: string)
      requires Valid()
      requires IsRecord(line)
      modifies this
      ensures Valid()
      ensures State() == Submit(old(State()), Write(line))
    {
      Execute(Write(line));
    }

    /** The LocationCallback: writeLocation for each fix of the result; clock[i] is read for fix i. */
    method OnLocationResult(locations: seq<Option<Location>>, clock: seq<nat>)
      requires Valid()
      requires |clock| == |locations|
      modifies this
      ensures Valid()
      ensures State() == LocationResult(old(State()), locations, clock)
    {
      var i := 0;
      while i < |locations|
        invariant 0 <= i <= |locations|
        invariant Valid()
        invariant State() == LocationResult(old(State()), locations[..i], clock[..i])
      {
        WriteLocation(locations[i], clock[i]);
        assert locations[..i + 1][..i] == locations[..i];
        assert clock[..i + 1][..i] == clock[..i];
        i := i + 1;
      }
      assert locations[..i] == locations && clock[..i] == clock;
    }

    /** The executor's worker takes the task at the head of the queue and runs it. */
    method RunNextTask(stamp: string, ioOk: bool) returns (ran: bool)
      requires Valid()
      modifies this
      ensures Valid()
      ensures State() == RunNext(old(State()), stamp, ioOk)
      ensures ran == (old(pending) != [])
    {
      ghost var s := State();
      if pending == [] {
        return false;
      }
      var task := pending[0];
      pending := pending[1..];
      ghost var popped := s.(queue := s.queue[1..]);
      match task {
      case OpenFile =>
        if ioOk {
          var name := FileName(stamp);
          disk := disk[name := [Header]];
          files := files + [name];
          if bufferedWriter.Some? {
            leaked := leaked + [bufferedWriter.value];
          }
          bufferedWriter := Some(name);
          assert State() == popped.(writer := Some(name), disk := s.disk[name := [Header]], files := s.files + [name],
                                    leaked := s.leaked + (if s.writer.Some? then [s.writer.value] else []));
        } else {
          assert State() == popped;
        }
      case Write(line) =>
        if bufferedWriter.Some? && ioOk {
          var f := bufferedWriter.value;
          disk := disk[f := Contents(disk, f) + [line]];
          assert State() == popped.(disk := s.disk[f := Contents(s.disk, f) + [line]]);
        } else {
          assert State() == popped;
        }
      case Close =>
        if bufferedWriter.Some? && ioOk {
          bufferedWriter := None;
          assert State() == popped.(writer := None);
        } else {
          assert State() == popped;
        }
      }
      assert State() == RunNext(s, stamp, ioOk);
      RunNextKeepsConsistent(old(State()), stamp, ioOk);
      return true;
    }
  }
}
