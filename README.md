# RoadSensorRecorder: the recording service in Dafny

RoadSensorRecorder is an Android app that records the phone's accelerometer,
gyroscope and location fixes to a CSV file while a foreground service runs.
This project models that service, `RecordingService`, and proves properties of
the model. Two modules do this.

- `Csv` (csv.dfy) covers the lines the service writes:
  - the header `Time,Type,X,Y,Z,Latitude,Longitude`;
  - the motion line `<millis>,<Accelerometer|Gyroscope>,x,y,z,,`;
  - the location line `<millis>,Location,,,,lat,lon`.

  It also gives a reader's view of a line, which splits the line into its
  comma-separated columns. Every line the service writes is proved to be a
  record of seven columns, and to have exactly the expected contents. The
  millisecond clock is rendered in decimal, and reading it back gives the
  value that was written.
- `Recorder` (recorder.dfy) covers the service's state and callbacks. The
  state is the value `Service`, which holds:
  - the writer, which is null or open on one file;
  - the files created and their lines;
  - writers that were replaced while still open;
  - the tasks pending on the single-thread I/O executor;
  - whether that executor is shut down;
  - the static `sIsRunning` flag;
  - the persisted `is_recording` preference;
  - the sensor and location registrations;
  - the broadcasts sent.

  Each callback is given twice:
  - as a pure transition function: `Start`, `Stop`, `StartCommand`,
    `Destroy`, `SensorChanged`, `LocationWritten`, `LocationResult`, and
    `RunNext` for the worker running one queued task;
  - as a method of the class `RecordingService`, which updates its fields
    step by step like the Java code and is proved to reach exactly the state
    the function gives.

  `Consistent` is the invariant kept by every callback and every task. It
  says:
  - every file begins with the header;
  - every line in a file is a seven-column record;
  - every queued write is such a record;
  - the open file and every leaked file exist;
  - a shut-down executor holds no tasks.

  Further lemmas state what the service promises:
  - onStartCommand dispatch;
  - the effects of start and stop;
  - sensor events dropped while no file is open, and routed to the new file
    on a second start;
  - location fixes written in list order;
  - queue-order draining of writes before the Close that stop queues;
  - stop's Close running after every task queued before it;
  - what onDestroy's `shutdownNow` drops, in both orders of the race
    with the worker;
  - a complete reference session ended as the app ends it (the stop intent,
    the drain, then onDestroy), whose file holds exactly the header and two
    expected lines.

Outside effects are parameters:
- The device's sensors are the constructor's arguments.
- The location permissions are a `Permissions` argument.
- The clock is a `now: nat` argument, or one reading per location fix.
- The date stamp read when the file is opened is a `stamp` argument of the
  worker step.
- Whether a task's file operation throws an `IOException` is an `ioOk`
  argument of the worker step.

## Behaviour the model follows from the code

The model does what `RecordingService.java` does:

- There is no guard against a second start or a second stop.
  - A second start queues a second OpenFile task. When that task runs, it
    replaces the open writer without closing it (`DoubleStartLeaksWriter`).
  - A second stop queues a second Close and sends a second
    RECORDING_STOPPED broadcast (`DoubleStop`).
- Nothing reconciles a stale persisted `is_recording` flag when the service
  is created, and onCreate does not write `sIsRunning` either. Both are
  whatever they were before (`Created` takes them as arguments).
- When the file cannot be created, `bufferedWriter` is not assigned. It keeps
  its previous value, which is null after a stop, so the session's later
  writes are dropped (`OpenTask`).
- On the first start of a service instance, when the writer is still null,
  sensor events are dropped until the OpenFile task has run
  (`EventBeforeOpenDropped`). On a second start while the first file is
  open, the writer is not null. Events are then queued behind the second
  OpenFile, and their lines go to the second file (`EventDuringSecondStart`).
  The file name carries a date stamp with one-second resolution, so a second
  start whose OpenFile runs in the same second as the first reopens the same
  file and truncates it, losing every line recorded so far
  (`SecondStartInSameSecond`).
- Location fixes are queued whether or not a file is open. They are then
  dropped when their task runs with a null writer
  (`LocationResultInOrder`, `WriteToNullWriterDropped`).
- The stop intent ends in `stopSelf`, after which the platform calls
  onDestroy. onDestroy runs the stop path a second time, which sends a
  second RECORDING_STOPPED and queues a second Close, and then calls
  `shutdownNow` (`ReferenceSession`).
- `shutdownNow` drops every task the worker has not yet taken. If it comes
  before the worker has drained the queue, the pending lines and the Close
  are lost and the file stays open (`DestroyDropsPendingTasks`,
  `ReferenceDestroyBeforeDrain`). If the idle worker takes onDestroy's Close
  first, the file is closed (`DestroyAfterWorkerTakesClose`). Which happens
  depends on thread timing.

## Model

Source paths are relative to the repository root.

| member | source | states |
|---|---|---|
| Csv.Header | app/src/main/java/com/example/roadsensorrecorder/RecordingService.java:130 | The header line. HeaderColumns states that it is one record whose columns are the seven names |
| Csv.SensorTypeName | app/src/main/java/com/example/roadsensorrecorder/RecordingService.java:264 | The Type column of a motion line. SensorLineColumns states it is Accelerometer exactly for TYPE_ACCELEROMETER and Gyroscope otherwise |
| Csv.Axis | app/src/main/java/com/example/roadsensorrecorder/RecordingService.java:265-267 | One axis value, or 0.0 when the event carries fewer values. SensorLineColumns states this for columns X, Y and Z |
| Csv.SensorLine | app/src/main/java/com/example/roadsensorrecorder/RecordingService.java:269 | The motion line. SensorLineColumns states its seven columns, and ScenarioSensorLine gives it character for character |
| Csv.LocationLine | app/src/main/java/com/example/roadsensorrecorder/RecordingService.java:278 | The location line. LocationLineColumns states its seven columns, and ScenarioLocationLine gives it character for character |
| Recorder.FileName | app/src/main/java/com/example/roadsensorrecorder/RecordingService.java:127-128 | The file name sensor_data_<stamp>.csv. OpenTask states that a successful open creates this file |
| Recorder.Created | app/src/main/java/com/example/roadsensorrecorder/RecordingService.java:66-86 | The state after onCreate. CreatedConsistent states it is consistent, with no writer, no task and both flags as found |
| Recorder.Submit | app/src/main/java/com/example/roadsensorrecorder/RecordingService.java:283 | ioExecutor.execute. SubmitKeepsConsistent states it keeps the invariant; StartEffects, StopEffects and SensorEventDropped state what it queues |
| Recorder.Available | app/src/main/java/com/example/roadsensorrecorder/RecordingService.java:147-160 | The registrations start makes. StartEffects states each one is made exactly when the device or the permission allows it |
| Recorder.Start | app/src/main/java/com/example/roadsensorrecorder/RecordingService.java:123-175 | startRecordingInternal. StartEffects states its effects, and StartKeepsConsistent states it keeps the invariant |
| Recorder.Stop | app/src/main/java/com/example/roadsensorrecorder/RecordingService.java:177-214 | stopRecordingInternal. StopEffects states its effects, and StopCommutesWithRun states that its Close runs after every earlier task |
| Recorder.StartCommand | app/src/main/java/com/example/roadsensorrecorder/RecordingService.java:216-243 | onStartCommand. Dispatch states which intents take the stop path and which take the start path |
| Recorder.Shutdown | app/src/main/java/com/example/roadsensorrecorder/RecordingService.java:255 | shutdownNow. DestroyDropsPendingTasks states that it drops every pending task and that later ones are refused |
| Recorder.Destroy | app/src/main/java/com/example/roadsensorrecorder/RecordingService.java:251-256 | onDestroy as one step. DestroyDropsPendingTasks and ReferenceDestroyBeforeDrain state what it loses, and ReferenceSession shows it after a drain |
| Recorder.SensorChanged | app/src/main/java/com/example/roadsensorrecorder/RecordingService.java:259-271 | onSensorChanged. SensorEventDropped states exactly when it queues and what it queues |
| Recorder.LocationWritten | app/src/main/java/com/example/roadsensorrecorder/RecordingService.java:276-280 | writeLocation. LocationWrittenKeepsConsistent states that what it queues is a record |
| Recorder.LocationResult | app/src/main/java/com/example/roadsensorrecorder/RecordingService.java:76-83 | The location callback. LocationResultInOrder states that it equals the reference LocationTasks in list order |
| Recorder.RunNext | app/src/main/java/com/example/roadsensorrecorder/RecordingService.java:125-135 | The worker running the head task (open, write, close). OpenTask, RunWrite, WriteToNullWriterDropped and CloseTask state each case |
| Csv.Decimal | app/src/main/java/com/example/roadsensorrecorder/RecordingService.java:269 | The millisecond clock renders as a non-empty string of decimal digits with no leading zero, except for the value 0 |
| Csv.DecimalValue | app/src/main/java/com/example/roadsensorrecorder/RecordingService.java:269 | Reading the Time column back as a decimal number gives the clock value that was written |
| Csv.SplitJoin | app/src/main/java/com/example/roadsensorrecorder/RecordingService.java:269 | Columns joined with commas split back into exactly those columns, provided none of them contains a comma |
| Csv.RecordOf | app/src/main/java/com/example/roadsensorrecorder/RecordingService.java:278 | Seven comma- and newline-free columns joined and newline-terminated form one record whose columns are exactly those seven |
| Csv.HeaderColumns | app/src/main/java/com/example/roadsensorrecorder/RecordingService.java:130 | The header line is itself a seven-column record whose columns are Time, Type, X, Y, Z, Latitude, Longitude |
| Csv.SensorLineColumns | app/src/main/java/com/example/roadsensorrecorder/RecordingService.java:264-269 | A motion line is one record. Its columns are: the clock; "Accelerometer" exactly when the sensor type is TYPE_ACCELEROMETER, else "Gyroscope"; the first three values, with a missing one read as 0.0; then two empty coordinate columns |
| Csv.LocationLineColumns | app/src/main/java/com/example/roadsensorrecorder/RecordingService.java:278 | A location line is one record whose columns are the clock, "Location", three empty axes, the latitude and the longitude |
| Csv.ScenarioSensorLine | app/src/main/java/com/example/roadsensorrecorder/RecordingService.java:269 | An accelerometer reading (0.1, 0.2, 9.8) at t=1000 is written as the line `1000,Accelerometer,0.1,0.2,9.8,,` |
| Csv.ScenarioLocationLine | app/src/main/java/com/example/roadsensorrecorder/RecordingService.java:278 | A fix (37.0, -122.0) at t=1500 is written as the line `1500,Location,,,,37.0,-122.0` |
| Recorder.CreatedConsistent | app/src/main/java/com/example/roadsensorrecorder/RecordingService.java:66-86 | The state after onCreate satisfies the invariant, with no writer and no queued task. It keeps both the static running flag and the persisted flag as found, since onCreate writes neither |
| Recorder.SubmitKeepsConsistent | app/src/main/java/com/example/roadsensorrecorder/RecordingService.java:282-292 | Queuing a task, or dropping it after shutdown, keeps the invariant as long as a queued write is a record |
| Recorder.StartKeepsConsistent | app/src/main/java/com/example/roadsensorrecorder/RecordingService.java:123-175 | startRecordingInternal keeps the invariant |
| Recorder.StopKeepsConsistent | app/src/main/java/com/example/roadsensorrecorder/RecordingService.java:177-214 | stopRecordingInternal keeps the invariant, and so does onDestroy |
| Recorder.SensorChangedKeepsConsistent | app/src/main/java/com/example/roadsensorrecorder/RecordingService.java:259-271 | onSensorChanged keeps the invariant: whatever it queues is a seven-column record |
| Recorder.LocationWrittenKeepsConsistent | app/src/main/java/com/example/roadsensorrecorder/RecordingService.java:276-280 | writeLocation keeps the invariant |
| Recorder.LocationResultKeepsConsistent | app/src/main/java/com/example/roadsensorrecorder/RecordingService.java:76-83 | The location callback keeps the invariant for any list of fixes |
| Recorder.RunNextKeepsConsistent | app/src/main/java/com/example/roadsensorrecorder/RecordingService.java:125-135 | Running any queued task keeps the invariant, whether it succeeds or fails. Each file keeps the header first and only records after it |
| Recorder.StartEffects | app/src/main/java/com/example/roadsensorrecorder/RecordingService.java:123-175 | Start queues exactly one OpenFile, sets the running flag and the persisted flag, and sends exactly one RECORDING_STARTED. Each motion sensor is registered exactly when the device has it, and location updates exactly when a location permission is granted. The writer and the files are not touched |
| Recorder.StopEffects | app/src/main/java/com/example/roadsensorrecorder/RecordingService.java:177-214 | Stop clears the running flag and every registration. It queues Close behind all pending tasks, sends RECORDING_STOPPED and persists false. The writer and the files are not touched |
| Recorder.DoubleStop | app/src/main/java/com/example/roadsensorrecorder/RecordingService.java:177-214 | Stopping twice sends two RECORDING_STOPPED broadcasts and queues two Close tasks |
| Recorder.Dispatch | app/src/main/java/com/example/roadsensorrecorder/RecordingService.java:216-243 | onStartCommand takes the stop path exactly for an intent whose action is ACTION_STOP. A null intent, a null action and ACTION_START take the start path |
| Recorder.StopPathDoesNotStart | app/src/main/java/com/example/roadsensorrecorder/RecordingService.java:223-228 | On the stop path the service is not running afterwards and sends only RECORDING_STOPPED |
| Recorder.SensorEventDropped | app/src/main/java/com/example/roadsensorrecorder/RecordingService.java:259-271 | A sensor event leaves the state unchanged exactly when the writer is null, the event, its sensor or its values are null, or the executor is shut down. Otherwise the new state is the old one with exactly its one sensor line queued |
| Recorder.LocationResultInOrder | app/src/main/java/com/example/roadsensorrecorder/RecordingService.java:76-83 | The location callback queues one write per non-null fix, in list order, each with its own clock reading. It agrees with the reference definition LocationTasks and changes nothing else |
| Recorder.LocationTasksAppend | app/src/main/java/com/example/roadsensorrecorder/RecordingService.java:79-81 | The writes for a list of fixes are the writes for all but the last fix, followed by the writes for the last fix |
| Recorder.OpenTask | app/src/main/java/com/example/roadsensorrecorder/RecordingService.java:125-135 | A successful open creates or truncates sensor_data_<stamp>.csv, leaving only the header in it, and makes it the writer's file. An already open writer is leaked. A failed open changes nothing but the queue |
| Recorder.WriteToNullWriterDropped | app/src/main/java/com/example/roadsensorrecorder/RecordingService.java:282-291 | A write that runs while the writer is null only leaves the queue |
| Recorder.CloseTask | app/src/main/java/com/example/roadsensorrecorder/RecordingService.java:189-199 | Close never changes a file. With no writer it is a no-op. A successful close nulls the writer, and a failed one keeps it |
| Recorder.CloseTwice | app/src/main/java/com/example/roadsensorrecorder/RecordingService.java:189-199 | Two queued Close tasks, the first succeeding, leave the writer null and every file unchanged |
| Recorder.RunWrite | app/src/main/java/com/example/roadsensorrecorder/RecordingService.java:283-291 | A write with an open writer appends its line to that file, or on an I/O error drops it. Nothing else changes |
| Recorder.DrainWrites | app/src/main/java/com/example/roadsensorrecorder/RecordingService.java:282-292 | Running queued writes while a file is open appends their lines to that file in queue order. A failed write drops only its own line |
| Recorder.RunAppend | app/src/main/java/com/example/roadsensorrecorder/RecordingService.java:64 | The single worker running two batches of tasks one after the other is the same as running them as one batch |
| Recorder.RunPreservesFlags | app/src/main/java/com/example/roadsensorrecorder/RecordingService.java:64 | The executor's tasks change only the writer, the files and the queue. They never change the running flag, the preference, the registrations or the broadcasts |
| Recorder.RunPops | app/src/main/java/com/example/roadsensorrecorder/RecordingService.java:64 | The single worker takes tasks only from the head of the queue: running k tasks removes exactly the first k |
| Recorder.RunNextStop | app/src/main/java/com/example/roadsensorrecorder/RecordingService.java:189-199 | Running one pending task after stop gives the same state as running it before stop |
| Recorder.StopCommutesWithRun | app/src/main/java/com/example/roadsensorrecorder/RecordingService.java:189-199 | FIFO: stop's Close waits behind every task queued before it, whatever those tasks are and whichever of them fail. Running up to that many tasks after stop equals running them and then stopping, and once all have run only the Close is left |
| Recorder.StopDrainsWritesBeforeClose | app/src/main/java/com/example/roadsensorrecorder/RecordingService.java:189-199 | Every write queued before stop reaches the open file, in order, before stop's Close runs. Afterwards the writer is null and the queue empty |
| Recorder.DestroyDropsPendingTasks | app/src/main/java/com/example/roadsensorrecorder/RecordingService.java:251-256 | When shutdownNow comes before the worker takes anything, onDestroy stops and then empties the queue, the just-queued Close included, so an open writer stays open. Later tasks are neither queued nor run |
| Recorder.DestroyAfterWorkerTakesClose | app/src/main/java/com/example/roadsensorrecorder/RecordingService.java:251-256 | When the idle worker takes onDestroy's Close before shutdownNow and the Close succeeds, the file is closed and unchanged, and the executor ends shut down and empty |
| Recorder.DoubleStartLeaksWriter | app/src/main/java/com/example/roadsensorrecorder/RecordingService.java:123-135 | Two starts send two RECORDING_STARTED broadcasts and run two OpenFile tasks. The first writer is leaked and never closed, and a following stop closes only the second writer. With two different stamps two files are opened; with the same stamp, the usual case when both tasks run back to back within one second, one file is opened twice and truncated to the header again |
| Recorder.EventBeforeOpenDropped | app/src/main/java/com/example/roadsensorrecorder/RecordingService.java:261 | On the first start of a service instance (writer null), whatever the flags found at creation, a sensor event arriving before the OpenFile task has run is dropped |
| Recorder.EventDuringSecondStart | app/src/main/java/com/example/roadsensorrecorder/RecordingService.java:259-271 | On a second start while a file is open, an event arriving before the second OpenFile runs is queued behind it. Once both tasks run, the disk is the old disk with the new file set to the header and that line, and the old writer is leaked. The first file is unchanged when the second open's stamp differs from the first's; otherwise see SecondStartInSameSecond |
| Recorder.SecondStartInSameSecond | app/src/main/java/com/example/roadsensorrecorder/RecordingService.java:127-131 | When the second OpenFile reads the same one-second stamp as the open file, new FileWriter truncates that same file: afterwards it holds only the header and the new line, every line recorded before is lost, and the old writer on it is leaked |
| Recorder.ReferenceRecordingQueue | app/src/main/java/com/example/roadsensorrecorder/RecordingService.java:123-175 | After start, a successful open, one accelerometer reading and one fix, the file holds only the header and the two expected lines are queued in arrival order |
| Recorder.StopAfterTwoWrites | app/src/main/java/com/example/roadsensorrecorder/RecordingService.java:177-214 | Stopping with two lines queued and running the three tasks leaves the file with the header and the two lines. The writer is closed and the service is not running |
| Recorder.ReferenceSession | app/src/main/java/com/example/roadsensorrecorder/RecordingService.java:216-256 | The reference session runs: start, one reading, one fix, the stop intent, the worker draining, then onDestroy. Afterwards the file holds exactly the header, the accelerometer line and the location line, and is closed. The broadcasts are RECORDING_STARTED followed by two RECORDING_STOPPED, and the executor is shut down |
| Recorder.ReferenceDestroyBeforeDrain | app/src/main/java/com/example/roadsensorrecorder/RecordingService.java:251-256 | In the same session with onDestroy before the drain, the two lines are lost. The file holds only the header and its writer is never closed |
| Recorder.RecordingService.constructor | app/src/main/java/com/example/roadsensorrecorder/RecordingService.java:66-86 | onCreate yields the created state: the device's sensors are recorded, and the running and persisted flags are left as given |
| Recorder.RecordingService.Execute | app/src/main/java/com/example/roadsensorrecorder/RecordingService.java:64 | Submitting a task appends it to the executor's queue, or drops it once the executor is shut down |
| Recorder.RecordingService.StartRecordingInternal | app/src/main/java/com/example/roadsensorrecorder/RecordingService.java:123-175 | The field updates reach exactly Start's state and keep the invariant |
| Recorder.RecordingService.StopRecordingInternal | app/src/main/java/com/example/roadsensorrecorder/RecordingService.java:177-214 | The field updates reach exactly Stop's state and keep the invariant |
| Recorder.RecordingService.OnStartCommand | app/src/main/java/com/example/roadsensorrecorder/RecordingService.java:216-243 | Dispatches on the intent as StartCommand does, keeps the invariant and always returns START_NOT_STICKY |
| Recorder.RecordingService.OnDestroy | app/src/main/java/com/example/roadsensorrecorder/RecordingService.java:251-256 | The stop path followed by shutdownNow reaches exactly Destroy's state: stopped, queue dropped, executor shut down |
| Recorder.RecordingService.ShutdownNow | app/src/main/java/com/example/roadsensorrecorder/RecordingService.java:255 | Drops every pending task and refuses later ones, keeping the invariant |
| Recorder.RecordingService.OnSensorChanged | app/src/main/java/com/example/roadsensorrecorder/RecordingService.java:259-271 | Reaches exactly SensorChanged's state and keeps the invariant |
| Recorder.RecordingService.WriteLocation | app/src/main/java/com/example/roadsensorrecorder/RecordingService.java:276-280 | Reaches exactly LocationWritten's state and keeps the invariant |
| Recorder.RecordingService.WriteToFile | app/src/main/java/com/example/roadsensorrecorder/RecordingService.java:282-292 | Queues one write of the line, or nothing after shutdown |
| Recorder.RecordingService.OnLocationResult | app/src/main/java/com/example/roadsensorrecorder/RecordingService.java:76-83 | The loop over the fixes reaches exactly LocationResult's state, which LocationResultInOrder ties to the fixes in list order |
| Recorder.RecordingService.RunNextTask | app/src/main/java/com/example/roadsensorrecorder/RecordingService.java:125-135 | The worker runs the head task (open, write or close) to exactly RunNext's state, and reports whether a task was pending |

## Left out

- The notification channel, the notification, `startForeground` and
  `stopForeground`: these are presentation with no effect on the recorded
  data.
- `stopSelf` is not a step of its own. The platform's call to onDestroy
  that follows it is applied by the caller as `Destroy`, as
  `ReferenceSession` does.
- The location request parameters (1000 ms interval, 500 ms minimum, high
  accuracy): they configure the platform, not the service.
- `onBind` and `onAccuracyChanged` have no behaviour of their own.
- Float and double rendering (`Float.toString`, `Double.toString`) and the
  `SimpleDateFormat` date stamp are opaque text. The model relies only on
  rendered numbers containing no comma and no newline.
- Recorder.SensorChanged, Recorder.LocationWritten: the clock is a `nat`, so
  a negative `System.currentTimeMillis()` is not modelled.
- Threads are not modelled:
  - each callback and each task is one atomic step, and the caller chooses
    how steps of the main thread and the worker interleave;
  - the unsynchronised read of `bufferedWriter` in onSensorChanged sees the
    latest value;
  - `shutdownNow` interrupting a task that is running is not modelled.
- Recorder.Destroy: the function treats onDestroy as one step, with
  `shutdownNow` before the worker takes anything. The worker may instead
  take onDestroy's Close between `execute` and `shutdownNow`.
  `DestroyAfterWorkerTakesClose` gives that outcome. The class method
  `OnDestroy` is the atomic version.
- Recorder.Submit: `execute` after `shutdownNow` throws
  `RejectedExecutionException` to the caller. The model instead drops the
  task silently.
- BufferedWriter buffering: a line counts as in the file once it is written
  to the writer. The model does not capture data lost in the unflushed
  buffer of a writer that is never closed. Such a writer is either leaked by
  a second start or left open when `shutdownNow` drops the Close.
- Recorder.RunNext: failure has one flag per task.
  - If the file is created but writing or flushing the header then throws,
    the model treats it as a failed open. In the Java code the writer would
    be assigned and the header missing.
  - If flush succeeds and close then throws, the model treats it as a failed
    close, and the writer stays assigned as in the code. The model does not
    capture that this writer is then closed (`BufferedWriter.close` releases
    its stream in a `finally`). Every later write and every later Close
    would throw, and the field would never be set to null again. In the
    model, a later Write or Close with `ioOk` true succeeds, and a later
    OpenFile records the closed writer as leaked.
- Failures of the preferences, of `LocalBroadcastManager` and of
  `removeLocationUpdates` are caught and only logged by the service. They
  are modelled as always succeeding.
- A `SecurityException` from `requestLocationUpdates` is caught. It is
  folded into `Permissions`: it counts as location not being registered.
- Recorder.RunNext: files left by earlier processes are not modelled, since
  `disk` starts empty. A file with the same name as an earlier one is still
  truncated to the header.
- Recorder.RecordingService.Execute and Recorder.RecordingService.WriteToFile
  require a queued write to be a record. Every caller in the service meets
  this requirement, because the invariant keeps it. Java places no such
  requirement on the lambda.
- Unregistering is modelled as clearing every registration
  (`unregisterListener(this)` removes both motion listeners).
- MainActivity and NotificationActionReceiver are not part of this model.
  Their writes to `sIsRunning` enter only as the constructor's running flag.
