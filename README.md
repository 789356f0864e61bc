# lerobot-panel core, modelled in Dafny

lerobot-panel is a local web panel for SO-101 robot arms. Its backend keeps a
store of registered robots and watches the serial ports and cameras of the
machine. It starts and cancels calibration runs and teleoperation sessions of
the `lerobot` scripts, and it streams fleet status to the browser. A set of
experiment scripts next to it probes cameras, resolves camera indices across
reboots, watches USB devices and drives a serial-port communication test.

The model has one Dafny module per core source file:

- `CalibrationManager` and `TeleopManager` are classes. Their sessions are
  objects held in a `map` field, and the active teleop session is an
  `Option` field. Each child process is a `Process.Proc` value:
  `Alive`, `Ended(code)` (ended but never waited for, so
  `returncode` is still `None`) or `Reaped(code)`. A process ending on its own
  is the step `ProcessEnds`. The reader and watcher threads are the steps
  `ReadLine`/`ConsumeOutput` and `Watch`. The bounded `deque` logs are
  `BoundedLog.Append`/`Last`.
- `Storage.RobotStore` is a class whose `robots` sequence the methods update
  in place. A `persisted` field records what would have been written to the
  JSON file.
- `App` holds the request rules of `backend/main.py`: dry-run flag, online
  status, model/role validation, name uniqueness, the calibration error rule,
  the teleop preconditions and the fleet-stream dedupe.
- `Models`, `Commands`, `DeviceMonitor` and `CameraMonitor` model the
  backend's pure builders and the camera and serial inventory.
- `CrossRebootIndex`, `CommunicationTest`, `CameraProbe` (`test.py`),
  `UsbWatch`, `Fourcc` (the `fourcc_to_str` shared by the three `reportcams*`
  scripts and `camlist.py`) and `CamList` (`probe_camera`) model the scripts.
- `Wrappers` (`Option`, `Result`, sequence lemmas) and `Text` (Python's
  `strip`, `isspace`, ASCII `lower`/`upper`, decimal formatting, `find`) are
  shared helpers.

Hardware, PowerShell, the registry, `subprocess`, clocks and `uuid4` are
parameters: the read results, the exit codes, what a spawn raised, the
registry lookup as a function `string -> Option<string>`, the time as its ISO
text and the fresh id.

## Model

| member | source | states |
|---|---|---|
| CalibrationManager.InputRefusal | backend/calibration_manager.py:126-130 | a session accepts input exactly when it is not dry-run and has a live process; a dry-run session gets the dry-run refusal, any other refused session "Calibration process is not running." |
| CalibrationManager.AfterCancel | backend/calibration_manager.py:171-179 | after cancel the process is never alive; a process that had already ended is reaped with its own code |
| CalibrationManager.CancelReturnCode | backend/calibration_manager.py:171-181 | the code cancel records is None exactly when a live process had to be killed and was never waited for; an ended process gives its exit code |
| CalibrationManager.CalibrationSession.constructor | backend/calibration_manager.py:17-36 | a new session state has an empty log, no process, running false and no return code |
| CalibrationManager.CalibrationSession.ReadLine | backend/calibration_manager.py:95-98 | the line without its trailing "\n" is appended to the log, bounded at 400 lines with the oldest dropped, and only when it is non-empty |
| CalibrationManager.CalibrationSession.ConsumeOutput | backend/calibration_manager.py:92-100 | without a process nothing is logged; otherwise the log becomes the last 400 of the old log followed by the non-empty cleaned lines, in order |
| CalibrationManager.CalibrationSession.ProcessEnds | backend/calibration_manager.py:102-107 | a live process ends with the given code; an ended one and a missing one are unchanged |
| CalibrationManager.CalibrationSession.Watch | backend/calibration_manager.py:102-112 | once the process has ended, running becomes false and return_code the exit code; before that nothing changes |
| CalibrationManager.CalibrationManager.constructor | backend/calibration_manager.py:40-42 | the registry starts empty |
| CalibrationManager.CalibrationManager.Get | backend/calibration_manager.py:118-120 | returns the registered session for an id, and None exactly when the id is not registered |
| CalibrationManager.CalibrationManager.Start | backend/calibration_manager.py:44-90 | the session is stored under its fresh id in every case and `Get` finds it; dry-run gives running false, return_code 0, no process and one "[dry-run] …" line; a spawn failure gives return_code -1, running false and a "Failed to start calibration" line; a spawn gives a live process and running true |
| CalibrationManager.CalibrationManager.CheckAccepting | backend/calibration_manager.py:126-130 | gives `InputRefusal` of the session; only the not-running refusal sets running false, and nothing else changes |
| CalibrationManager.CalibrationManager.SendEnter | backend/calibration_manager.py:122-138 | checks in order: unknown id, dry-run, no live process (running set false); only then is "\n" written, or the write error is reported with nothing written |
| CalibrationManager.CalibrationManager.SendStop | backend/calibration_manager.py:140-158 | the same checks as `SendEnter`, then the enter-flag file is created before "\n" is written; a failure to create it writes nothing |
| CalibrationManager.CalibrationManager.Cancel | backend/calibration_manager.py:160-187 | unknown id → false; dry-run → true with the session unchanged; no process → false; otherwise true, the process ends, running is false, return_code is the process's code and the enter flag is gone; the entry stays registered |
| CalibrationManager.CancelTwice | backend/calibration_manager.py:160-187 | cancelling the same session twice succeeds both times and leaves it stopped with a known return code |
| TeleopManager.AfterStop | backend/teleop_manager.py:185-203 | a stopped process is never alive and carries the code it ended with |
| TeleopManager.CodeText | backend/teleop_manager.py:207 | an unknown return code prints as "None", and only then |
| TeleopManager.StopEscalation | backend/teleop_manager.py:180-207 | stop logs "stop requested" first, "terminate sent" exactly when the process outlived the interrupt, "kill sent" exactly when it outlived terminate; the reported code is "None" exactly after a kill |
| TeleopManager.TeleopSession.constructor | backend/teleop_manager.py:74-81 | a new session has its leader, follower and command, an empty log, no process and running false |
| TeleopManager.TeleopSession.Log | backend/teleop_manager.py:22 | a log line is appended to the deque bounded at 600 lines |
| TeleopManager.TeleopSession.ReadLine | backend/teleop_manager.py:133-136 | the line without trailing "\r"/"\n" is appended when non-empty, with the 600-line bound |
| TeleopManager.TeleopSession.ReadLines | backend/teleop_manager.py:129-138 | the log becomes the last 600 of the old log followed by the non-empty cleaned lines, in order |
| TeleopManager.TeleopSession.ConsumeOutput | backend/teleop_manager.py:129-144 | as `ReadLines`, and a reader error adds one "[panel] output reader stopped: …" line |
| TeleopManager.TeleopSession.RecordExit | backend/teleop_manager.py:149-153 | an ended process sets return_code to its code, running to false, and logs "Teleop exited (code=…)." |
| TeleopManager.TeleopSession.Halt | backend/teleop_manager.py:164-203 | every path ends with running false; dry-run touches nothing else; an exited process only records its code; a live one is stopped by escalation and its return code is recorded |
| TeleopManager.TeleopSession.ProcessEnds | backend/teleop_manager.py:146-148 | a live process ends with the given code; otherwise nothing changes |
| TeleopManager.Launch | backend/teleop_manager.py:70-127 | the fresh session's first log line is "Starting: <cmd>"; dry-run gives ok, running false, return_code 0 and no process; a spawn failure gives not ok, return_code -1 and running false; a spawn gives a live process and running true |
| TeleopManager.TeleopManager.constructor | backend/teleop_manager.py:44-47 | no sessions and no active id |
| TeleopManager.TeleopManager.Active | backend/teleop_manager.py:57-61 | returns the session named by a non-empty active id, and None otherwise |
| TeleopManager.TeleopManager.Store | backend/teleop_manager.py:84-86 | the session is registered under its id and becomes the active one |
| TeleopManager.TeleopManager.Start | backend/teleop_manager.py:63-127 | while a session runs, the same pair gets (true, "Teleop already running.", that session) and a different pair is refused, with nothing changed either way; otherwise a launched session is stored and made active |
| TeleopManager.TeleopManager.Watch | backend/teleop_manager.py:146-155 | once the process has ended its exit is recorded, and the active id is cleared only when it still names this session |
| TeleopManager.TeleopManager.Stop | backend/teleop_manager.py:157-207 | no active session → false; a leader/follower mismatch → false with nothing changed; every matching stop succeeds, leaves the session not running and clears the active id |
| TeleopManager.StopThenStart | backend/teleop_manager.py:157-207 | after a successful stop the same pair can start again, and the new session is the active one |
| Storage.Load | backend/storage.py:31-38 | a missing or corrupt file gives an empty robot list; a parsed file gives its robots |
| Storage.ParseDatetime | backend/storage.py:15-21 | a value is kept exactly when it is present, non-empty and ISO-parsable; otherwise None |
| Storage.ToRobot | backend/storage.py:105-117 | the robot carries the record's fields, status "offline", and last_seen parsed as by `ParseDatetime` |
| Storage.NewRecord | backend/storage.py:55-60 | a new record has the fresh id, the payload's fields, has_calibration false and null calibration and last_seen |
| Storage.FirstIndex | backend/storage.py:48-53 | the position of the first record with the id; every record before it, or every record when None, has another id |
| Storage.Without | backend/storage.py:68-69 | removes exactly the records with the id, keeps all others, and the length is unchanged exactly when no record matched |
| Storage.WithoutKeepsOrder | backend/storage.py:68-69 | filtering a concatenation is filtering each part, so kept records stay in their stored order |
| Storage.WithoutSingle | backend/storage.py:68-69 | one record is kept exactly when its id differs |
| Storage.WithoutNoMatch | backend/storage.py:66-74 | with no matching record the list is untouched |
| Storage.Calibrated | backend/storage.py:80-82 | has_calibration true and the given calibration, every other field unchanged |
| Storage.Uncalibrated | backend/storage.py:91-93 | has_calibration false and no calibration, every other field unchanged |
| Storage.ClearUndoesSet | backend/storage.py:76-95 | clearing after setting gives the cleared record; for a record never calibrated it gives the record back |
| Storage.RobotStore.constructor | backend/storage.py:25-29 | the store starts with the loaded robots and nothing written |
| Storage.RobotStore.List | backend/storage.py:44-46 | every stored record, in stored order, as a robot |
| Storage.RobotStore.FindFirst | backend/storage.py:48-53 | the scan loop finds `FirstIndex` |
| Storage.RobotStore.Get | backend/storage.py:48-53 | the first robot with the id, and None exactly when no record has it |
| Storage.RobotStore.Add | backend/storage.py:55-64 | exactly one new record is appended at the end, earlier records unchanged, and the list is saved |
| Storage.RobotStore.Delete | backend/storage.py:66-74 | removes every record with the id and returns true exactly when one existed; otherwise nothing changes and nothing is saved |
| Storage.RobotStore.SetCalibration | backend/storage.py:76-85 | only the first matching record gets the calibration and is returned; an unknown id returns None and changes nothing |
| Storage.RobotStore.ClearCalibration | backend/storage.py:87-95 | only the first matching record loses its calibration and is returned; an unknown id returns None and changes nothing |
| Storage.RobotStore.MarkSeen | backend/storage.py:97-103 | only the first matching record's last_seen changes; an unknown id is a no-op |
| App.AllowRealCommands | backend/main.py:48-55 | with LEROBOT_DRY_RUN set, real commands run exactly when its lowercase value is "0", "false" or "no"; unset, exactly when lerobot is importable |
| App.DryRunFlagCases | backend/main.py:48-55 | examples of the `AllowRealCommands` rule, which states it for all inputs: "" and "1" force dry-run, "FALSE" and "No" allow real commands, and an unset flag without lerobot forces dry-run |
| App.Status | backend/main.py:58-65 | "online" exactly when the robot's port is a key of the port snapshot, "offline" otherwise |
| App.WithStatus | backend/main.py:58-65 | the robot gets that status; online also marks it seen now in the store (and rewrites the file) and reports the new last_seen, and an id not in the store leaves it untouched; offline keeps the stored last_seen and changes nothing |
| App.SeenIfOnline | backend/main.py:58-64 | the records `_with_status` leaves: same ids and ports in the same order, and only the first record with the id may change, only when online, only in its last_seen |
| App.ValidateModelRole | backend/main.py:68-73 | succeeds exactly for a supported model with a role it lists; otherwise 400 naming the unsupported model or role |
| App.NameTakenIff | backend/main.py:100-103 | a name is taken exactly when some stored name is equal to it ignoring case |
| App.NameTakenIgnoresCase | backend/main.py:100-103 | upper- or lower-casing a name does not change whether it is taken |
| App.AddedNameTaken | backend/main.py:98-105 | once a robot is added, its name in any case is taken |
| App.SeenKeepsNames | backend/main.py:58-65 | marking a robot seen does not change the set of names |
| App.CreateRobot | backend/main.py:98-105 | an invalid model/role and a taken name are refused with the store and the file unchanged; otherwise `Registered` (the new record with the payload's fields, no calibration, seen now exactly when its port is online) is appended, the file rewritten, and `Shown` of it returned |
| App.Register | backend/main.py:104-105 | the store becomes the old records followed by `Registered`, the file is rewritten, the name is now taken, and the answer is the new record as a Robot with its status and last_seen |
| App.StartCalibrationError | backend/main.py:128-130 | 500 exactly when the session is not dry-run, not running and has a non-zero code; the detail is the last log line, else the default |
| App.StartCalibrationOutcomes | backend/main.py:128-130 | a dry-run and a running start are not errors; a spawn failure is a 500 carrying the failure line |
| App.RequireRobot | backend/main.py:76-80 | an unknown robot is a 404 "Robot not found" |
| App.TeleopPrecheck | backend/main.py:209-223 | checks in order: both robots exist, same model, follower calibrated, leader calibrated, follower role, leader role; the first failure is reported |
| App.StartTeleop | backend/main.py:209-223 | a missing leader is a 404 with the store untouched; a missing follower is a 404 after the leader has been marked seen if online; otherwise both are marked seen if online, in that order, and the checks of `TeleopPrecheck` run on the status-updated copies; the file is rewritten exactly when one of them is online |
| App.PrecheckedTeleopTypes | backend/main.py:214-223 | after the precheck the teleop command gives --robot.type "<model>_follower" and --teleop.type "<model>_leader" |
| App.Collapse | backend/main.py:246-249 | the sent payloads are the first frame and every frame that differs from the one before it: no two consecutive sends are equal, and the last frame is sent |
| App.CollapseConstant | backend/main.py:246-249 | an unchanged fleet is sent once |
| App.CollapseSendsChanges | backend/main.py:246-249 | the number of sends is one plus the number of changes between consecutive frames |
| App.FleetStream | backend/main.py:233-252 | the stream loop sends exactly `Collapse` of the frames |
| Models.DeviceType | backend/models.py:38-41 | so101 leader → "so101_leader", follower → "so101_follower", an unknown model → "<model>_<role>" |
| Models.DeviceTypeIsModelRole | backend/models.py:9-17 | with the current table the device type always equals model + "_" + role |
| Models.So101Roles | backend/models.py:11 | so101 supports exactly the roles "leader" and "follower" |
| Commands.BuildEnv | backend/commands.py:21-29 | PYTHONPATH becomes "<root>/src" followed by pathsep and the old value when that is non-empty, else "<root>/src"; no repo root leaves the environment as is; all other variables are copied unchanged |
| Commands.ParseFlagOfFlag | backend/commands.py:45-50 | a "--key=value" argument reads back as its key and value |
| Commands.ParseArgsAppend | backend/commands.py:75-82 | the flags of two argument lists joined are those of the first overridden by those of the second |
| Commands.CalibrationRoleKey | backend/commands.py:41 | the flag prefix is "teleop" exactly for role "leader", "robot" otherwise |
| Commands.BuildCalibrationCmd | backend/commands.py:40-50 | seven arguments starting with the interpreter, "-u", "-m", "lerobot.scripts.lerobot_calibrate" |
| Commands.CalibrationCmdFlags | backend/commands.py:42-50 | the last three arguments set exactly `<prefix>.type`, `.port` and `.id` to device type, com port and name |
| Commands.BuildTeleopCmd | backend/commands.py:74-86 | the same six arguments end the command either way; the console script alone precedes them when it resolves, otherwise the interpreter, "-u", "-m", "lerobot.scripts.lerobot_teleoperate" |
| Commands.TeleopArgsFlags | backend/commands.py:75-82 | the arguments set robot.type/port/id from the follower and teleop.type/port/id from the leader |
| Commands.RunCalibration | backend/commands.py:53-71 | ok exactly for dry-run or exit code 0; dry-run returns "[dry-run] <cmd>" without running; no interpreter gives "Python interpreter not found.", a spawn failure "Failed to start calibration: <error>", exit code 0 "Executed: <cmd>" and any other code "Calibration command failed with code <code>." |
| DeviceMonitor.Describe | backend/device_monitor.py:46 | a missing description falls back to the device name |
| DeviceMonitor.PortMap | backend/device_monitor.py:42-48 | every named device is a key, no key is empty, and the last entry's description wins |
| DeviceMonitor.PortMapKeys | backend/device_monitor.py:43-45 | every key is the device of some entry |
| DeviceMonitor.PortMapLastWins | backend/device_monitor.py:46-47 | a later duplicate device overwrites an earlier one |
| DeviceMonitor.PortMapAppend | backend/device_monitor.py:42-48 | the map of joined lists is the first map overridden by the second |
| DeviceMonitor.DetectPorts | backend/device_monitor.py:36-48 | without pyserial the map is empty; otherwise the loop builds `PortMap` |
| DeviceMonitor.Monitor.constructor | backend/device_monitor.py:16-18 | the port map starts empty |
| DeviceMonitor.Monitor.Snapshot | backend/device_monitor.py:32-34 | returns the current port map as a value, which the caller cannot change |
| DeviceMonitor.Monitor.Run | backend/device_monitor.py:50-55 | each poll replaces the whole map, so after the loop it is the map of the last poll |
| CameraMonitor.ReplaceRuns | backend/camera_monitor.py:61 | the result holds only [A-Za-z0-9._-] characters, and a non-empty input stays non-empty |
| CameraMonitor.ReplaceRunsKeeps | backend/camera_monitor.py:61 | text made only of allowed characters is unchanged |
| CameraMonitor.ReplaceRunsOfRun | backend/camera_monitor.py:61 | a run of disallowed characters becomes a single "-" |
| CameraMonitor.Slugify | backend/camera_monitor.py:60-62 | never empty, only allowed characters, and "cam" for blank input |
| CameraMonitor.SlugifyIdempotent | backend/camera_monitor.py:60-62 | slugifying a slug changes nothing |
| CameraMonitor.SlugifyDigits | backend/camera_monitor.py:60-62 | a decimal index is its own slug |
| CameraMonitor.BackendFlag | backend/camera_monitor.py:494-502 | None for a missing or empty backend; otherwise a case-insensitive lookup among msmf, dshow and any |
| CameraMonitor.BackendFlagExamples | backend/camera_monitor.py:494-502 | "DShow" and "MSMF" resolve, "v4l2" does not |
| CameraMonitor.RealsenseDevice | backend/camera_monitor.py:187-199 | a RealSense device has kind "realsense", an id "realsense:…" and its serial as path |
| CameraMonitor.RealsenseDevices | backend/camera_monitor.py:124-126 | one device per RealSense, in order |
| CameraMonitor.FallbackDevice | backend/camera_monitor.py:258-280 | the fallback id is "opencv:<index>" |
| CameraMonitor.FallbackIdInjective | backend/camera_monitor.py:258-280 | different indices give different fallback ids |
| CameraMonitor.FallbackDevices | backend/camera_monitor.py:258-280 | one device for each index that opened, in rising index order |
| CameraMonitor.FallbackStep | backend/camera_monitor.py:258-280 | probing one more index keeps the fallback devices in rising index order, one per opened index |
| CameraMonitor.FallbackDevicesDistinct | backend/camera_monitor.py:258-280 | the fallback ids are distinct |
| CameraMonitor.Freshened | backend/camera_monitor.py:237-242 | the id is not yet in the map; a free id is kept as it is; a taken one is extended by "-<number of devices>", repeatedly, until it is free |
| CameraMonitor.FreshId | backend/camera_monitor.py:237-242 | the collision loop computes `Freshened` |
| CameraMonitor.AddCamera | backend/camera_monitor.py:231-242 | the id is `Freshened` of "opencv:" plus the slug of the kept path, or of the index when there is none; a path already seen, compared case-insensitively, is dropped to None (so the id falls back to the index), and a new one is recorded |
| CameraMonitor.AddAssigned | backend/camera_monitor.py:231-242 | a device added for a later camera, keeping the path `KeptPath` allows and filed under its base id made fresh, keeps `IdsAssigned` |
| CameraMonitor.AddKept | backend/camera_monitor.py:231-235 | the path `AddCamera` keeps is `KeptPath`'s (the camera's own path unless empty or already kept ignoring case), and the seen set stays the set of kept paths, lower-cased |
| CameraMonitor.ScanStart | backend/camera_monitor.py:214-215 | the scan starts with no devices and no seen paths |
| CameraMonitor.ScanCamera | backend/camera_monitor.py:218-254 | one turn of the enumeration loop: an excluded camera adds nothing, any other adds its device at the end, keeping the path `KeptPath` allows and the base id of that path made fresh (`Scanned`) |
| CameraMonitor.ScanDone | backend/camera_monitor.py:218-256 | a scan over every camera gives the enumeration's promises, including `IdsAssigned`: each device's path is the one `KeptPath` allows after the devices before it and its id is the base id of that path made fresh |
| CameraMonitor.EnumerateDevices | backend/camera_monitor.py:218-242 | every camera not excluded gives exactly one device, in camera order (`from` rises), and every excluded one is skipped; each device keeps its camera's path unless that is empty or already kept ignoring case, and its id is the base id of the kept path (or of the index) made fresh against the devices before it (`IdsAssigned`); ids are distinct and the kept paths differ ignoring case |
| CameraMonitor.ProbeIndices | backend/camera_monitor.py:258-280 | the probing loop builds `FallbackDevices` |
| CameraMonitor.DetectOpenCV | backend/camera_monitor.py:205-280 | `OpenCVDetected`: no OpenCV gives nothing; when every camera is excluded, the probed devices; otherwise one device per non-excluded camera in order, with the path `KeptPath` allows and under the base id of that path made fresh; ids are distinct |
| CameraMonitor.FirstEnumerated | backend/camera_monitor.py:231-238 | the first enumerated device keeps its camera's non-empty path and is filed under that path's base id unchanged |
| CameraMonitor.InsertAll | backend/camera_monitor.py:124-136 | the keys are the old ones plus the devices' ids, and the last device with an id wins |
| CameraMonitor.InsertAllKeeps | backend/camera_monitor.py:132-136 | a device not overwritten later is found under its id |
| CameraMonitor.InsertAllOthers | backend/camera_monitor.py:132-136 | ids no device has keep their old entry |
| CameraMonitor.MergedDevices | backend/camera_monitor.py:121-137 | RealSense devices are inserted first and OpenCV devices after them, so each keeps its own entry |
| CameraMonitor.FileAll | backend/camera_monitor.py:128-136 | the insertion loop builds `InsertAll` |
| CameraMonitor.CollectExclusions | backend/camera_monitor.py:222-229 | the RealSense vid/pid signatures and serials are collected, skipping pairs where both are empty |
| CameraMonitor.FileDetected | backend/camera_monitor.py:124-135 | the RealSense devices are filed, then the OpenCV ones; every OpenCV device is found under its id, every RealSense id stays a RealSense device, and the keys are exactly the two id sets |
| CameraMonitor.DetectExcluding | backend/camera_monitor.py:127-134 | `_detect_opencv` run with the RealSense signatures and serials gives `OpenCVDetected` for them, which fixes each enumerated device's kept path and id (`IdsAssigned`) |
| CameraMonitor.DetectDevices | backend/camera_monitor.py:121-137 | the device map of one poll: the RealSense devices, then the OpenCV devices of `OpenCVDetected` under the RealSense signatures and serials (no excluded camera appears, every other camera does with the path `KeptPath` allows and the base id of that path made fresh, and the probed indices when all are excluded) |
| CameraMonitor.BlankIdsMatch | backend/camera_monitor.py:511-527 | a camera with blank vid/pid matches any device that has no vendor or product id |
| CameraMonitor.FirstMatch | backend/camera_monitor.py:511-527 | the index of the first enumerated camera matching the device, and None exactly when none matches |
| CameraMonitor.MatchIndex | backend/camera_monitor.py:511-527 | no enumeration gives no match; otherwise `FirstMatch` |
| CameraMonitor.Attempts | backend/camera_monitor.py:529-556 | four attempts per target present, with every path attempt before any index attempt |
| CameraMonitor.FirstOpen | backend/camera_monitor.py:558-571 | the first attempt that opens; none before it opens |
| CameraMonitor.OpenCapture | backend/camera_monitor.py:504-571 | no OpenCV gives None; otherwise the first opening attempt, skipping None targets and repeated target/backend pairs, or None |
| CameraMonitor.Monitor.constructor | backend/camera_monitor.py:71-74 | the device map starts empty |
| CameraMonitor.Monitor.Get | backend/camera_monitor.py:92-94 | returns the device under the id, and None exactly when there is none |
| CameraMonitor.Monitor.Route | backend/camera_monitor.py:96-112 | an unknown id is reported; a RealSense device goes to the RealSense path, any other to OpenCV |
| CameraMonitor.Monitor.Poll | backend/camera_monitor.py:114-119 | each poll replaces the map with the RealSense devices followed by the OpenCV devices that `OpenCVDetected` describes (each with its kept path and the base id of that path made fresh), under distinct ids; every id is "realsense:…" or "opencv:…" |
| CrossRebootIndex.TokensAt | experiments/scripts/camera-related/cross-reboot-index.py:15 | the two tokens after "usb#" are non-empty and free of '#' |
| CrossRebootIndex.Search | experiments/scripts/camera-related/cross-reboot-index.py:31-34 | the leftmost position with a match, anchored or anywhere as asked, and none before it |
| CrossRebootIndex.SearchChosen | experiments/scripts/camera-related/cross-reboot-index.py:31-34 | the anchored search, else the unanchored one, finds the `Chosen` match |
| CrossRebootIndex.ChosenUnique | experiments/scripts/camera-related/cross-reboot-index.py:31-34 | at most one position is the chosen match |
| CrossRebootIndex.DshowPathToInstanceId | experiments/scripts/camera-related/cross-reboot-index.py:27-39 | an empty path and a path without usb tokens are errors; otherwise "USB\A\B" upper-cased from the `Chosen` match of the stripped path: the leftmost anchored one, else the leftmost anywhere |
| CrossRebootIndex.InstanceIdOfDevicePath | experiments/scripts/camera-related/cross-reboot-index.py:27-39 | a "\\?\usb#A#B#…" device path gives "USB\A\B" upper-cased |
| CrossRebootIndex.DevicePathTokens | experiments/scripts/camera-related/cross-reboot-index.py:15 | such a path's tokens are A and B |
| CrossRebootIndex.GuidBraces | experiments/scripts/camera-related/cross-reboot-index.py:11-13 | each brace of a GUID is optional on its own |
| CrossRebootIndex.GuidShape | experiments/scripts/camera-related/cross-reboot-index.py:11-13 | a GUID is 36 to 38 characters long with no outer whitespace |
| CrossRebootIndex.ContainerIdFromInstanceId | experiments/scripts/camera-related/cross-reboot-index.py:42-58 | an empty or "none" id is rejected before any lookup; a lookup that is missing, empty or not a GUID is rejected; otherwise the stripped GUID |
| CrossRebootIndex.StrippedGuid | experiments/scripts/camera-related/cross-reboot-index.py:53-56 | a stripped lookup result that passes the check is exactly a GUID |
| CrossRebootIndex.Enrich | experiments/scripts/camera-related/cross-reboot-index.py:75-90 | keeps the camera's fields and always sets both keys; they are null together, and set exactly when the path is non-empty and both steps succeed |
| CrossRebootIndex.FirstWithContainer | experiments/scripts/camera-related/cross-reboot-index.py:165-172 | the first camera whose container id matches; none before it does |
| CrossRebootIndex.ResolveIndex | experiments/scripts/camera-related/cross-reboot-index.py:159-172 | None exactly when no camera's container id equals the saved one after trim and lowercase |
| CrossRebootIndex.ResolveSaved | experiments/scripts/camera-related/cross-reboot-index.py:159-172 | the first camera whose container matches the saved one gives its index |
| CommunicationTest.Prompt | experiments/scripts/robot-communication/communication-test.py:26-38 | the first accepted line is answered and every line before it is re-prompted |
| CommunicationTest.PromptBlankDefault | experiments/scripts/robot-communication/communication-test.py:33-34 | blank input with a default returns the default |
| CommunicationTest.MenuChoice | experiments/scripts/robot-communication/communication-test.py:61-69 | blank input picks the default; other input is refused only when manual entry is off and it is not a valid number |
| CommunicationTest.MenuNumber | experiments/scripts/robot-communication/communication-test.py:63-66 | the number d picks options[d-1] |
| CommunicationTest.MenuManual | experiments/scripts/robot-communication/communication-test.py:67-68 | any other text is returned as typed when manual entry is on |
| CommunicationTest.ChooseFromMenu | experiments/scripts/robot-communication/communication-test.py:46-69 | the first line that gives a choice decides it; with manual entry the first line always does |
| CommunicationTest.PortList | experiments/scripts/robot-communication/communication-test.py:83-88 | empty devices are skipped |
| CommunicationTest.DetectComPorts | experiments/scripts/robot-communication/communication-test.py:72-88 | without pyserial no ports; otherwise `PortList` |
| CommunicationTest.PortListMatchesPortMap | experiments/scripts/robot-communication/communication-test.py:83-88 | the listed ports are exactly the keys of the backend's port map |
| CommunicationTest.EntryNamesPort | experiments/scripts/robot-communication/communication-test.py:94-96 | a menu entry is "dev (desc)", or "dev" when desc is empty or equal to dev, and it names its port |
| CommunicationTest.MapBack | experiments/scripts/robot-communication/communication-test.py:99-102 | text that names no port is returned as typed |
| CommunicationTest.MapBackEntry | experiments/scripts/robot-communication/communication-test.py:99-102 | a selected entry maps back to its device |
| CommunicationTest.ChoosePort | experiments/scripts/robot-communication/communication-test.py:91-105 | with ports, the first line is chosen from the menu and mapped back to a device; without ports the port is the stripped first non-blank line, and None exactly when there is none |
| CommunicationTest.BuildCommand | experiments/scripts/robot-communication/communication-test.py:108-117 | only the two supported types build a command, which starts with the interpreter, "-m" and the calibrate module |
| CommunicationTest.BuildCommandFlags | experiments/scripts/robot-communication/communication-test.py:20-23 | so101_follower uses "robot" and so101_leader "teleop" for the type/port/id flags |
| CommunicationTest.AddRepoToEnv | experiments/scripts/robot-communication/communication-test.py:120-127 | without a repo the environment is returned as is; otherwise the repo root is reported |
| CommunicationTest.AddRepoToEnvMatchesBuildEnv | experiments/scripts/robot-communication/communication-test.py:120-127 | the new environment is the one the backend's `_build_env` builds, a copy with the input untouched |
| CameraProbe.ParseLine | self-made/cam/testback/test.py:43-48 | a line is skipped exactly when it is blank after stripping or has no triple-bar separator; otherwise a stripped name and instance id |
| CameraProbe.ParseLineOfFormat | self-made/cam/testback/test.py:29-48 | a camera printed as its name, the triple-bar separator and its id is parsed back unchanged, the split being at the first separator |
| CameraProbe.PnpCamsOfLines | self-made/cam/testback/test.py:42-49 | printing cameras one per line and parsing gives the same cameras, in order |
| CameraProbe.ListPresentCameras | self-made/cam/testback/test.py:18-49 | a failed query gives no cameras; otherwise the loop collects each line's camera in line order |
| CameraProbe.FirstUsable | self-made/cam/testback/test.py:70-74 | a frame is found exactly when some read is usable, and it is non-empty |
| CameraProbe.TryOpenIndex | self-made/cam/testback/test.py:62-80 | (false, None) when the capture does not open; otherwise true with the first usable frame of the warm-up, or None |
| CameraProbe.OpenedResults | self-made/cam/testback/test.py:103-112 | one result per index that opened, in rising index order, with its frame's hash |
| CameraProbe.OpenedResultsEmpty | self-made/cam/testback/test.py:114-116 | there are no results exactly when no index opened |
| CameraProbe.ProbeIndices | self-made/cam/testback/test.py:102-112 | the probing loop builds `OpenedResults` |
| CameraProbe.NoFrameKeysDiffer | self-made/cam/testback/test.py:121 | frameless results never share a "NOFRAME_<i>" group |
| CameraProbe.GroupsFaithful | self-made/cam/testback/test.py:119-122 | each group key appears once and holds exactly the indices of the results with that key |
| CameraProbe.GroupsOrdered | self-made/cam/testback/test.py:119-122 | groups appear in the order of their first index |
| CameraProbe.DupMarked | self-made/cam/testback/test.py:124-128 | the DUP marker appears exactly when another result has the same hash, and lists every index of that group |
| CameraProbe.UniqueMembers | self-made/cam/testback/test.py:131 | the unique list holds exactly the first index of each group whose key is not a NOFRAME key |
| CameraProbe.UniqueIncreasing | self-made/cam/testback/test.py:131 | the unique list rises with the index |
| CameraProbe.NoFrameNotUnique | self-made/cam/testback/test.py:121-131 | a frameless index is never in the unique list |
| CameraProbe.UniqueOfResults | self-made/cam/testback/test.py:118-132 | the unique list rises, holds the first index of every real-hash group and no frameless index |
| CameraProbe.GroupByHash | self-made/cam/testback/test.py:119-122 | the setdefault-append loop builds the grouping |
| CameraProbe.DupMarkers | self-made/cam/testback/test.py:124-128 | one marker per result, in result order |
| CameraProbe.ProbeBackend | self-made/cam/testback/test.py:100-132 | "No indices opened." exactly when no index opened; otherwise the results, their markers and the unique list |
| UsbWatch.FriendlyName | experiments/scripts/camera-related/usb-devices/usb_watch.py:50 | a missing or empty FriendlyName becomes "(unknown USB device)" |
| UsbWatch.DevicesOf | experiments/scripts/camera-related/usb-devices/usb_watch.py:45-53 | every key and name is non-empty |
| UsbWatch.DevicesKeys | experiments/scripts/camera-related/usb-devices/usb_watch.py:47-49 | the keys are exactly the non-empty InstanceIds of the items |
| UsbWatch.DevicesLastWins | experiments/scripts/camera-related/usb-devices/usb_watch.py:51 | a later duplicate InstanceId overwrites an earlier one |
| UsbWatch.BuildDevices | experiments/scripts/camera-related/usb-devices/usb_watch.py:45-53 | the loop builds `DevicesOf` |
| UsbWatch.Records | experiments/scripts/camera-related/usb-devices/usb_watch.py:39-43 | empty output is an empty list and a single object becomes a one-item list |
| UsbWatch.Fetch | experiments/scripts/camera-related/usb-devices/usb_watch.py:18-53 | a non-zero exit is an error carrying the stripped stderr or the default text; unparsable output is an error; otherwise the device map |
| UsbWatch.BelowIrreflexive | experiments/scripts/camera-related/usb-devices/usb_watch.py:74 | Python string order is irreflexive |
| UsbWatch.BelowTransitive | experiments/scripts/camera-related/usb-devices/usb_watch.py:74 | and transitive |
| UsbWatch.BelowTotal | experiments/scripts/camera-related/usb-devices/usb_watch.py:74 | and total on distinct strings |
| UsbWatch.HasLeast | experiments/scripts/camera-related/usb-devices/usb_watch.py:74 | every non-empty set of ids has a least one |
| UsbWatch.SortedIds | experiments/scripts/camera-related/usb-devices/usb_watch.py:74-77 | `sorted` gives each id once, in strictly rising order |
| UsbWatch.IncreasingUnique | experiments/scripts/camera-related/usb-devices/usb_watch.py:74-77 | two rising lists with the same ids are equal, so the sorted order is determined |
| UsbWatch.NameOr | experiments/scripts/camera-related/usb-devices/usb_watch.py:78 | the stored name, or "(unknown USB device)" when absent |
| UsbWatch.Watcher.constructor | experiments/scripts/camera-related/usb-devices/usb_watch.py:58-60 | the previous snapshot starts as the baseline |
| UsbWatch.Watcher.Poll | experiments/scripts/camera-related/usb-devices/usb_watch.py:63-81 | a failed read reports the error and leaves `previous` unchanged; otherwise the added ids (current minus previous) and the removed ids (previous minus current) are reported sorted, each once, and `previous` becomes the current map |
| UsbWatch.Report | experiments/scripts/camera-related/usb-devices/usb_watch.py:74-79 | the ids of one map missing from the other set are reported sorted, each with its name from that map |
| UsbWatch.ReportsOf | experiments/scripts/camera-related/usb-devices/usb_watch.py:74-79 | a sorted list of the ids with their names is such a report |
| UsbWatch.ReportsUnique | experiments/scripts/camera-related/usb-devices/usb_watch.py:74-79 | the report is uniquely determined by the two snapshots |
| Fourcc.FourccToStr | self-made/cam/testback/reportcams-fps-for-res.py:17-21 | always four characters; character k has code (i >> 8k) & 0xFF, lowest byte first |
| Fourcc.Codes | self-made/cam/testback/reportcams.py:19-22 | the four codes are the base-256 digits of i, for negative i too |
| Fourcc.CodesReassemble | self-made/cam/testback/reportcams-opti.py:18-24 | the four codes reassemble i modulo 2^32 |
| Fourcc.FourccRoundTrip | self-made/cam/testback/reportcams-fps-for-res.py:19-21 | reading the decoded string back as a FOURCC gives i modulo 2^32 |
| Fourcc.FourccLossless | self-made/cam/testback/reportcams.py:17-23 | for 0 ≤ i < 2^32 decoding is lossless |
| Fourcc.FourccIgnoresHighBits | self-made/cam/testback/reportcams-opti.py:20-23 | i and i + 2^32 decode to the same string |
| Fourcc.FourccOfValue | self-made/camlist.py:40-41 | decoding the FOURCC of a four-byte code such as "MJPG" gives the code back |
| CamList.ReadAt | self-made/camlist.py:18-19 | reads past the supplied ones fail without a frame |
| CamList.FirstUsableAt | self-made/camlist.py:18-21 | the first usable read among the first n; none before it is usable |
| CamList.BackendLabel | self-made/camlist.py:30 | "MSMF" exactly for the Media Foundation backend, otherwise the backend's number |
| CamList.ProbeCamera | self-made/camlist.py:4-38 | None when the capture does not open or the read the warm-up leaves behind failed; a crash on `frame.shape` when it succeeded without a frame; otherwise the description |
| CamList.FirstUsableFixed | self-made/camlist.py:18-21 | the warm-up stops at the first usable read |
| CamList.NoOkReadNoCamera | self-made/camlist.py:24-26 | when no read succeeds during the warm-up, no camera is described |
| CamList.UsableReadDescribes | self-made/camlist.py:18-31 | with a usable read the described frame is the first usable one, as in `test.py`'s warm-up |
| CamList.FirstUsableOfPrefix | self-made/camlist.py:18-21 | the first usable read of the warm-up is that of the read prefix |
| CamList.EmptyFrameDescribed | self-made/camlist.py:18-31 | a warm-up whose last read succeeded with an empty frame still describes the camera |
| BoundedLog.Append | backend/calibration_manager.py:21 | a bounded deque append: below the bound the item is added, at the bound the length stays the bound, and the item is last |
| BoundedLog.AppendDropsOldest | backend/teleop_manager.py:22 | at the bound the oldest item is dropped |
| BoundedLog.LastOfLast | backend/teleop_manager.py:22 | bounding, appending and bounding again equals bounding once |
| BoundedLog.Cleaned | backend/teleop_manager.py:133-136 | the cleaned lines are non-empty and no more than the input |
| BoundedLog.ReadStep | backend/calibration_manager.py:95-98 | each reader step keeps the log equal to the bounded cleaned prefix |
| Process.ReturnCode | backend/calibration_manager.py:105-107 | a return code is known exactly once the process has been reaped |
| Process.Poll | backend/calibration_manager.py:128 | `poll()` reaps an ended process and leaves a live one alive |
| Process.Exit | backend/calibration_manager.py:102-107 | only a live process can end, with the given code |

## Left out

- Process spawning, pipes, signals and timeouts are not modelled. The spawn result, the outcome of the interrupt/terminate/kill escalation and the process's exit code are inputs (`Spawn`, `StopOutcome`, `CancelOutcome`, `ProcessEnds`).
- TeleopManager.TeleopSession.Halt: a `terminate()` or `kill()` that itself raises (backend/teleop_manager.py:188-203) is not a modelled path; each signal the escalation reaches is taken as sent and logged.
- The reader and watcher threads and the locks are not modelled as concurrency. Each thread is a step that runs atomically.
- FastAPI routing, WebSockets, asyncio sleeps and JSON serialization of `backend/main.py` are not modelled. The fleet stream keeps only the decision to send a frame iff it changed, over frames given as their serialized text.
- backend/main.py:14 imports `run_teleop`, which backend/commands.py does not define, so importing main.py as written fails and none of its endpoints can run. The model states the rules those endpoints apply as if the import succeeded.
- `start_calibration` (backend/main.py:122-143): the precondition `App.RequireRobot` and the error rule `App.StartCalibrationError` are modelled. Building the response is not, because it reads `snapshot["ranges"]` (line 141) and the session snapshot of backend/calibration_manager.py has no such key; `calibration_status` (line 160) reads it the same way.
- `start_teleop` (backend/main.py:209-231): the lookups, the status updates that mark online robots seen before any check, and the checks are modelled by `App.StartTeleop` and `App.TeleopPrecheck`. The call to the missing `run_teleop` (line 226) and its response are not.
- `calibration_input` (backend/main.py:172-178) calls `send_input`, which `CalibrationManager` does not define, and is not modelled.
- `TeleopManager` is modelled on its own, since main.py does not use it.
- The JSON store file, `uuid4`, `datetime.utcnow` and `fromisoformat` are not modelled. The store is an in-memory sequence with a `persisted` copy. The fresh id is a parameter, and `CreateRobot` requires that no record has it yet. Times are their ISO text, and ISO validity is a predicate parameter.
- Readable command text is a space-join. The quoting of `shlex.quote` and `subprocess.list2cmdline` is not modelled.
- `Text.Lower`/`Upper` are ASCII only. Python's full Unicode case mapping is not modelled; this includes IGNORECASE matching of characters such as 'ſ' and the Kelvin sign.
- `CommunicationTest.MenuChoice`: digits are ASCII only, while Python's `isdigit` also accepts other Unicode digits.
- OpenCV, pyrealsense2, cv2_enumerate_cameras and pygrabber are not modelled. What they report is input: whether a capture opens, the reads, the enumerated cameras and the RealSense serials. Frame capture, JPEG encoding, FPS measurement and suggested modes are left out.
- `frame_hash` (resize, grayscale, SHA-1) is not modelled. A frame carries its hash.
- Fourcc.FourccToStr takes an integer. The float-to-int truncation `int(v)` in the `reportcams*` scripts is not modelled, and `cv2.VideoWriter_fourcc` is represented by the reference definition `FourccValue`.
- Floats are left out, including the float-valued width, height and FPS in `probe_camera`'s description and the joint ranges in `Models.JointCalibration`, which are kept as `real`.
- The PowerShell and registry queries are oracles. The PnP query is its output lines. The USB query is its parsed JSON (`UsbWatch.Output`): the JSON parser, non-string field values and non-object items are not modelled. The container lookup is a function from instance id to optional text.
- UsbWatch: the baseline fetch in `main` that raises is not modelled, and neither are `print`, the one-second sleep or Ctrl+C. `Watcher.Poll` takes one fetch result per tick.
- Interactive `input()` loops are the sequence of lines the user types. A loop that never gets an accepted line ends with None.
- The top-level loop of `camlist.py` runs `probe_camera` over a range of indices and prints each result; the loop and the printing are not modelled, only `probe_camera` is (`CamList.ProbeCamera`).
- The top-level loops of `reportcams*.py` and the `try_mode`/`test_mode`/`measure_fps` measurements are FPS timing on hardware and are not modelled.
- An exception raised midway through `_detect_opencv`'s enumeration (backend/camera_monitor.py:254-259) is not modelled. The source swallows it and keeps the cameras filed so far, and probes indices only when none was filed. The model runs the enumeration to the end and probes when it yields no camera.
- CommunicationTest.AddRepoToEnv: the returned root is a parameter. That it is the parent of `repoSrc` (communication-test.py:121, 127) is not modelled, because file paths are plain text here.
- CrossRebootIndex.ResolveIndex: takes the saved container id as text. The branch of `resolve_index` that prints a message and returns None when the config file does not exist, and the JSON read of that file, are not modelled.
- CalibrationManager.CalibrationManager.Cancel: removing the enter-flag file is modelled as always succeeding; the swallowed `OSError` is not modelled.
- The scripts self-made/cam/avail.py, self-made/listtest.py, self-made/otherlist.py, self-made/cam/testback/produce_frames.py, self-made/cam/regist.py, experiments/scripts/camera-related/visualise-camera-feed.py and experiments/scripts/camera-related/detect-realsense-sn.py are pure hardware probing and are not part of this model.
