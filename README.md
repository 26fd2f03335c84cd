# Sensor pipeline core, modelled in Dafny

The system is a small Raspberry Pi sensor pipeline with five parts:

- **main.c (producer).** A C loop reads `|humidity|temperature|ADC|` lines from the UART. It watches a button flag and an NTP timer, and writes `alarm.json`, `ntp.json` or `sensor.json` into `<project>/tmp`.
- **server.py.** A Python watchdog handler filters, debounces and classifies changes to those files.
- **app.js.** A browser script polls the files. It keeps an alarm flag that the button can only arm and polling can only disarm, plus a newest-first log capped at 50 entries.
- **ntp_over_http.c.** A C module fetches the time over HTTP and parses the `"datetime"` value into `NTP_Time`.
- **dht11Driver.c.** A C driver decodes the DHT11 sensor's pulse train into five bytes.

One module per source file:

| file | module | models |
|---|---|---|
| `common.dfy` | `Common` | `Option`, C strings (`CStr`: text up to the first NUL), NUL padding |
| `server.dfy` | `Server` | server/server.py: `STATE_MAP`, `get_state`, `os.path.basename`, `JSONFileHandler` as a class with its `last_modified` map |
| `producer.dfy` | `Producer` | Core/main.c: POSIX `dirname`, `JSON_BASE_DIR`, the `write_json_to_file` path, the line framer, the per-iteration choice of file; a `Producer` class over the two `char[64]` arrays |
| `dashboard.dfy` | `Dashboard` | page/app.js: `addLog`, `setAlarmVisualState`, the click handler, the three update functions, `fetchData`, the sensor label; a `DashboardState` class holding `isAlarmActive` and the log |
| `ntp.dfy` | `NtpHttp` | ntp_over_http.c/.h: the `MemoryStruct` buffer and its callback as a class with an `array`, `strstr`, sscanf's `%d`, `parse_time_string`, `get_http_time` |
| `dht11.dfy` | `Dht11` | dht11Driver.c/.h: `read_dht11_dat` over an `array<int>`, as written and with the store bounded |
| `pipeline.dfy` | `Pipeline` | producer and server together: every file the producer writes is accepted by the handler and classified as the state it stands for |

How each source's inputs are modelled:

- **main.c.**
  - The serial port, the button flag and the NTP timer thread become inputs. `Producer.Iterate` takes the received byte (if any) as a parameter. `PressButton` and `NtpTimerFires` are the writes of `button_press` and `json_post_type` by another context between iterations.
  - sscanf's `%f` scan is a parameter giving the number of items converted. A cJSON document is represented by the post type it was built for.
- **server.py.** Time is an integer clock in milliseconds, so the 0.5 s default window is 500. Opening and decoding the file is an input, `Ok(payload)` or `Err(reason)`. server/server.py decodes once, with no retry, and keeps no store and no HTTP endpoint; the model follows that code.
- **ntp_over_http.c.** The HTTP transfer is an input: whether curl initialises, the chunks it delivers, whether each realloc succeeds, and whether the transfer succeeds. The source inlines `parse_time_string` in `get_http_time`, and the model keeps it as a separate function, `NtpHttp.ParseTimeString`. `char` is unsigned (the ARM Linux ABI), so `(char)x` keeps `x` modulo 256. C's `%` truncates toward zero and is written out as `CRem`.
- **dht11Driver.c.** The wire becomes the sequence of the 85 values `counter` reaches, one per transition; 255 is the timeout.
- **app.js.** JSON values are a `JsValue` datatype with JavaScript truthiness and `typeof`. A log entry is its level plus a `Message` naming which line it is and the values put into it.
  - The page's markup is two inputs of `DashboardState`: whether `toggle-alarm-btn` exists, and whether the alarm status text contains "Awaiting". Without the button every call of `setAlarmVisualState` throws a TypeError at its first write to the button's text; `ButtonlessAlarmDisplay` and `ButtonlessFetch` are the script's behaviour on such a page, and the throw reaches the catch block of `fetchData`.

State-changing code is written imperatively. `JsonFileHandler`, `Producer`, `DashboardState` and `MemoryStruct` are classes with `modifies` clauses. `read_dht11_dat`, `strncpy`, `memset` and `memcpy` work on arrays. Each such method is proved against a function of the old state and its inputs, and the properties of those functions are proved as lemmas.

## Model

| member | source | states |
|---|---|---|
| Server.GetState | server/server.py:14-26 | `NtpUpdate`, `SensorUpdate` and `AlarmStop` exactly for `ntp.json`, `sensor.json` and `alarm.json` (each an if-and-only-if), and `Unknown` for every other string |
| Server.Basename | server/server.py:56 | the basename is a suffix of the path without '/', and it is either the whole path or preceded by '/' |
| Server.BasenameIs | server/server.py:56 | for a `name` without '/', the basename is `name` if and only if the path is `name` or ends in `"/" + name` |
| Server.BasenameOfChild | server/server.py:56 | the basename of `dir + "/" + name` is `name`, for every directory |
| Server.ClassifyIgnoresDirectory | server/server.py:56-58 | the tag of `dir/name` is the tag of `name`: the parent directory never affects classification |
| Server.Classify | server/server.py:48-58 | a decode error ends handling with that error and nothing classified; a decoded payload is classified by the path's basename and carried through |
| Server.LastSeen | server/server.py:42 | the time recorded for the path, and 0 for a path never recorded |
| Server.Admits | server/server.py:42-43 | a path never recorded is admitted exactly when `now` is at least the window |
| Server.SecondEventAdmitted | server/server.py:41-45 | after an event for `p` is recorded at `t`, an event for `p` at `t + delta` is admitted if and only if `delta >= window` |
| Server.OtherPathsUnaffected | server/server.py:42-45 | recording an event for one path (keyed by full path) never changes whether another path is admitted |
| Server.JsonFileHandler.constructor | server/server.py:29-33 | the default window is 500 ms and the timestamp map starts empty |
| Server.JsonFileHandler.OnModified | server/server.py:35-58 | directory and non-`.json` events are filtered and leave the map unchanged; an event inside the window is debounced and leaves the map unchanged; an admitted event records `now` for its full path only, before decoding, so a failed decode still uses up the window, and the result is `Classify` of the decode |
| Server.DebounceScenario | server/server.py:35-58 | writes of `sensor.json` at 1000, 1100 and 1600 ms: the first is classified as SENSOR_UPDATE with its payload, the second is debounced, and the third is admitted and ends in its decode error |
| Producer.Dirname | Core/main.c:94-107 | a path without '/' gives "."; any other result than "." and "/" is a proper prefix of the path that does not end in '/' |
| Producer.DirnameOfChild | Core/main.c:94-107 | `dirname(d + "/" + n)` is `d` for a non-empty `d` not ending in '/' and a non-empty `n` without '/' |
| Producer.ExePath | Core/main.c:82-87 | readlink keeps a prefix of the link of length `min(|link|, 4095)`: the whole link when it fits, exactly 4095 bytes otherwise |
| Producer.JsonBaseDir | Core/main.c:81-125 | a readlink failure aborts; startup succeeds exactly when three `dirname`s of the executable path plus `"/tmp"` fit in 4096 bytes, and the directory is that string |
| Producer.ThreeDirnames | Core/main.c:94-107 | three `dirname`s of `root/a/b/exe` give `root` |
| Producer.BaseDirOfProjectLayout | Core/main.c:81-125 | an executable at `root/a/b/exe` gets `JSON_BASE_DIR == root/tmp` |
| Producer.WriteJsonPath | Core/main.c:39-47 | nothing is written if either argument is NULL or `JSON_BASE_DIR` is empty (if and only if); otherwise the path is a prefix of `"<dir>/<base>.json"`: the whole string when it has at most 4094 characters, and exactly its first 4094 otherwise |
| Producer.Feed | Core/main.c:187-210 | a byte completes a line exactly when it is a terminator and the partial line is non-empty, and that line becomes the kept one; otherwise the kept line stays |
| Producer.Receive | Core/main.c:186-187 | with no byte available nothing changes and no line completes |
| Producer.FeedAll | Core/main.c:178-210 | from the empty buffers, the partial and kept lines never exceed 63 characters |
| Producer.PendingIsExpected | Core/main.c:187-210 | after any byte stream the partial line is the run since the last terminator, restarted after every 64th character, stated without the framer |
| Producer.LatestIsLastCompletedLine | Core/main.c:178-210 | after any byte stream the kept line is the most recent non-empty completed line (empty before the first), and both the partial and the kept line have at most 63 characters |
| Producer.Select | Core/main.c:181-198 | the sensor type exactly when a line completed, or neither a line nor a press came and the type left over was sensor; the alarm type exactly when no line completed and either the button was pressed or the type left over was alarm; otherwise the type left over |
| Producer.SelectPriority | Core/main.c:181-198 | within one iteration a completed line overrides a button press, which overrides the value the timer left |
| Producer.NoAlarmWithoutPress | Core/main.c:181-184 | unless `button_press` is set, no iteration selects the alarm file; with it set, it does unless a line completes |
| Producer.Emit | Core/main.c:213-285 | idle writes nothing; the alarm and NTP cases write `alarm.json` and `ntp.json`; the sensor case writes `sensor.json` only when sscanf converts all 3 fields, and nothing otherwise |
| Producer.ClearBuffer | Core/main.c:201 | memset leaves every byte NUL |
| Producer.StrNCpy | Core/main.c:195 | strncpy leaves the first `n` bytes of `dst` as the source's first `n` bytes up to their first NUL, padded with NULs, and the rest of `dst` unchanged |
| Producer.LineCopied | Core/main.c:191-195 | once the NUL is placed after the line, the C string in the buffer is the line's |
| Producer.CopiedLineIsPadded | Core/main.c:195-196 | strncpy of 63 bytes plus the forced last NUL leave the line, NUL-padded, in the 64-byte buffer |
| Producer.LatestText | Core/main.c:257 | sscanf reads the kept line up to its first NUL |
| Producer.Producer.constructor | Core/main.c:134-178 | before the loop both buffers are empty, `latestSerialData` is all NUL, and after the first NTP sync an NTP file is due |
| Producer.Producer.PressButton | Core/main.c:181-183 | a write of `button_press` from outside the loop between two iterations; the next iteration then clears it and selects the alarm file unless a line completes in that iteration |
| Producer.Producer.NtpTimerFires | Core/main.c:68-74 | the timer thread sets `json_post_type` to NTP |
| Producer.Producer.FeedByte | Core/main.c:187-210 | one received byte updates both buffers as `Feed` does to the abstract framer and keeps the buffer invariant: `serialData[..dataIndex]` is the partial line, `dataIndex <= 63`, and `latestSerialData` is the kept line NUL-padded; a completed non-empty line sets the sensor type and nothing else does; a terminator or an overflow clears `serialData` |
| Producer.Producer.RecordLine | Core/main.c:193-198 | the completed line is copied into `latestSerialData`, NUL-padded to 64 bytes, and the type becomes sensor |
| Producer.Producer.ResetBuffer | Core/main.c:200-201 | `dataIndex` returns to 0 and `serialData` is all NUL |
| Producer.Producer.Iterate | Core/main.c:180-288 | one loop pass keeps the buffer invariant, clears `button_press`, writes exactly the file `Emit(Select(...))` names (at most one), and ends with `json_post_type == IDLE_TYPE` |
| Pipeline.WrittenPath | Core/main.c:39-47 | for each non-idle post type and a short enough base directory, the file written is `<dir>/<name>.json` |
| Pipeline.NameClassifies | server/server.py:14-18 | `alarm.json`, `ntp.json` and `sensor.json` classify as the alarm-stop, NTP and sensor states |
| Pipeline.ChildFileClassifies | server/server.py:35-58 | a file named after a post type, in any directory, passes the `.json` filter and classifies as that type's state |
| Pipeline.WrittenFileClassifies | server/server.py:35-58 | every file the producer writes without truncation passes the handler's filter and classifies as the state it was written for |
| Pipeline.AlarmFileIn | Core/main.c:214-227 | the alarm branch writes `alarm.json` into any short, NUL-free directory, and the server reads it as ALARM_STOP |
| Pipeline.AlarmFileInTmp | Core/main.c:116 | the same holds for the directory `root/tmp` |
| Pipeline.WatchedDir | server/server.py:77-85 | the directory the server watches is two parents up from its script, then `tmp` |
| Pipeline.WatchedDirOfLayout | server/server.py:77-85 | a script at `root/c/s` watches `root/tmp` |
| Pipeline.ServerScriptWatches | server/server.py:77-85 | server.py at `root/c/server.py` watches `root/tmp` |
| Pipeline.AlarmFileReachesServer | server/server.py:77-85 | with the executable at `root/a/b/exe` and the server script at `root/c/server.py`, the alarm file lands in `root/tmp`, which is the directory the server watches, and it reaches the server as ALARM_STOP |
| Dashboard.AddEntry | page/app.js:17-26 | the new entry comes first, followed by the old list in order; the list grows by one below 50 entries and otherwise keeps its length, dropping the oldest |
| Dashboard.AddAll | page/app.js:17-26 | after a run of `addLog` calls the last entry logged is first, and a list of at most 50 grows to `min(old + new, 50)` entries |
| Dashboard.AddAllAppend | page/app.js:17-26 | logging `a` then `b` is logging `a + b` |
| Dashboard.AddAllWithRoom | page/app.js:17-26 | while the total fits in 50 entries, the new entries come first in reverse order of logging, followed by the old log |
| Dashboard.LogWindow | page/app.js:17-26 | from at most 50 entries, any run of `addLog` calls leaves the 50 newest entries, newest first |
| Dashboard.SetAlarm | page/app.js:32-56 | afterwards the flag is `active`; exactly one ALARM entry is logged on a real transition, and none when the state already matches |
| Dashboard.Click | page/app.js:178-190 | a click always leaves the alarm armed: arming with one ALARM entry when disarmed, one INFO entry when already armed |
| Dashboard.NtpDisplay | page/app.js:60-68 | the flag is unchanged and exactly one entry is added on top of the old log: UPDATE for a truthy object, ERROR otherwise |
| Dashboard.SensorDisplay | page/app.js:70-101 | the flag is unchanged and exactly one entry is added on top of the old log: UPDATE for a truthy object, ERROR otherwise |
| Dashboard.AlarmDisplay | page/app.js:103-136 | it disarms only for an object holding `alarm_stopped === true` and never arms; a value without the key logs a WARN, telling a missing value from an invalid one; an object with the key set to any other value changes nothing |
| Dashboard.NtpEntries | page/app.js:156-157 | one entry exactly when the body's `ntp.json` is truthy, and it is UPDATE exactly when that entry's `.data` is a truthy object |
| Dashboard.SensorEntries | page/app.js:159-160 | one entry exactly when the body's `sensor.json` is truthy, and it is UPDATE exactly when that entry's `.data` is a truthy object |
| Dashboard.AlarmEntries | page/app.js:103-136 | no entry exactly for an object whose `alarm_stopped` is present and not `true`; two exactly when armed and disarming; a disarm always ends in ALARM_EVENT; a value without the key gives one WARN |
| Dashboard.FetchEntries | page/app.js:141-174 | a poll always logs something, and its last entry is CRITICAL exactly when the request failed, the status was not ok, or the body was null; a usable body starts with the POLLING line counting its files |
| Dashboard.AlarmDisplayEntries | page/app.js:103-136 | updateAlarmDisplay's log is the old log with `AlarmEntries` logged on top |
| Dashboard.Updates | page/app.js:154-161 | the NTP and sensor updates never touch the flag and log exactly `NtpEntries` then `SensorEntries` |
| Dashboard.Dispatch | page/app.js:154-166 | after the NTP and sensor updates, the flag is cleared exactly when the value passed to updateAlarmDisplay (the whole `alarm.json` entry as written, its `.data` when unwrapped) is an object with `alarm_stopped === true`; the log is the old log with the NTP, sensor and alarm entries logged in that order |
| Dashboard.Fetch | page/app.js:141-174 | a poll never arms, and clears the flag exactly when the response disarms; the log is the old log with `FetchEntries` logged on top, stays within 50 and is never empty afterwards |
| Dashboard.FetchAll | page/app.js:141-174 | a run of polls never arms and keeps the log within 50 entries |
| Dashboard.NonOkResponse | page/app.js:144-173 | for every log of at most 50 entries, a non-ok HTTP status leaves the flag alone and logs ERROR, then CRITICAL, which is newest, on top of the old log, cut to 50 entries |
| Dashboard.WrappedAlarmEntryNeverDisarms | page/app.js:156-166 | as written, an `alarm.json` entry of the `{state, data}` shape never disarms, even with `{"alarm_stopped": true}` under `data` |
| Dashboard.UnwrappedAlarmEntryDisarms | page/app.js:156-166 | passing the entry's `.data`, as the NTP and sensor branches do, makes the same response disarm |
| Dashboard.BareAlarmEntryDisarms | page/app.js:109-116 | as written, `{"alarm_stopped": true}` as the entry itself disarms |
| Dashboard.ButtonlessAlarmDisplay | page/app.js:103-136 | without the button the flag never changes; the call throws exactly when the value disarms, or when it has no `alarm_stopped`, the alarm is disarmed and the status says "Awaiting"; an object with the key changes nothing, and one without it logs its WARN first |
| Dashboard.ButtonlessFetch | page/app.js:141-174 | without the button a poll never changes the flag; failed requests and null bodies log as with the button, a disarming body logs POLLING, the NTP and sensor entries, then CRITICAL for the TypeError instead of the disarm; a body whose `alarm.json` lacks `alarm_stopped` on a disarmed page still showing "Awaiting" logs what the poll logs with the button, then CRITICAL for the TypeError; any other body logs exactly what it logs with the button |
| Dashboard.ButtonlessBody | page/app.js:103-136 | for a body that does not disarm, updateAlarmDisplay without the button logs what it logs with it, throws exactly when the 'Initial Load' call at line 133 does, and then the poll's log is the one with the button plus CRITICAL |
| Dashboard.PollEndingCritical | page/app.js:154-172 | the log of a poll cut short by the TypeError is the POLLING line, the NTP and sensor entries, then CRITICAL |
| Dashboard.ButtonlessDisarmIsCritical | page/app.js:109-116 | `{"alarm_stopped": true}` leaves the flag and ends the poll in CRITICAL without the button, and clears the flag and ends in ALARM_EVENT with it |
| Dashboard.UpperAscii | page/app.js:90 | an ASCII lower-case letter becomes the capital 32 code points below it, and every other character is kept |
| Dashboard.SpaceBeforeCapitals | page/app.js:90 | inserting spaces never shortens the key, and the result never starts with a capital |
| Dashboard.UnspaceSpaceBeforeCapitals | page/app.js:90 | removing each space that precedes a capital gives back the key, so inserting them loses nothing |
| Dashboard.CapitalsArePreceded | page/app.js:90 | every capital of the spaced key has a space right before it |
| Dashboard.CapitalizeFirst | page/app.js:90 | only the first character changes, upper-cased, unless it is a line terminator that `/^./` does not match |
| Dashboard.SensorLabel | page/app.js:73-90 | `hum`, `tempC` and `mq7Adc` get their fixed labels; a name `Object.prototype` supplies renders that inherited value; any other key gets a space before each capital, then its first character upper-cased |
| Dashboard.LeadingCapitalKey | page/app.js:90 | a key that already starts with a capital gets a leading space, which upper-casing leaves in place |
| Dashboard.CamelCaseLabel | page/app.js:90 | `coPpm` is shown as `Co Ppm` |
| Dashboard.DashboardState.constructor | page/app.js:177-199 | the script starts disarmed (line 14), logs CRITICAL when the toggle button is missing, and then logs the INFO start line |
| Dashboard.DashboardState.AddLog | page/app.js:17-26 | the log becomes `AddEntry` of the old log |
| Dashboard.DashboardState.SetAlarmVisualState | page/app.js:32-56 | with the button, flag and log become `SetAlarm` of the old ones; without it the call throws and changes neither |
| Dashboard.DashboardState.OnToggleClick | page/app.js:177-190 | the listener exists only with the button; flag and log become `Click` of the old ones |
| Dashboard.DashboardState.UpdateNtpDisplay | page/app.js:60-68 | flag and log become `NtpDisplay` of the old ones |
| Dashboard.DashboardState.UpdateSensorDisplay | page/app.js:70-101 | flag and log become `SensorDisplay` of the old ones |
| Dashboard.DashboardState.UpdateAlarmDisplay | page/app.js:103-136 | with the button, flag and log become `AlarmDisplay` of the old ones and nothing throws; without it they and the throw are `ButtonlessAlarmDisplay` |
| Dashboard.DashboardState.FetchData | page/app.js:141-174 | flag and log become `Fetch` of the old ones with the alarm entry passed whole as written, or `ButtonlessFetch` without the button |
| NtpHttp.CharCast | Core/Modules/ntp_over_http.c:158-160 | `(char)x` is a byte, and equals `x` when `x` is already one |
| NtpHttp.CRem | Core/Modules/ntp_over_http.c:160 | C's `%` takes the dividend's sign and stays strictly between `-b` and `b` |
| NtpHttp.Fill | Core/Modules/ntp_over_http.h:9-12 | `date` holds three bytes, which are `[day, month, year % 100]` for in-range day and month and a non-negative year; `time` is `[second, minute, hour]` |
| NtpHttp.FindFrom | Core/Modules/ntp_over_http.c:145 | a position found from `k` on holds the key and no earlier one from `k` does; no position means the key occurs nowhere from `k` on |
| NtpHttp.Find | Core/Modules/ntp_over_http.c:145 | strstr returns the first position of the key, and no position when it does not occur |
| NtpHttp.FindAfterPrefix | Core/Modules/ntp_over_http.c:145 | a key placed after text that does not contain it is found right there |
| NtpHttp.ScanInt | Core/Modules/ntp_over_http.c:153-154 | `%d` fails exactly when, after white space, neither a digit nor a sign and a digit follows; otherwise it consumes the white space, the sign and the longest run of digits, stops at the end or a non-digit, and its value is that run's decimal value, negated after '-' |
| NtpHttp.ScanIntThen | Core/Modules/ntp_over_http.c:153 | a number followed by the literal separator succeeds exactly when `%d` succeeds and the next character is the separator, with the same value and the text after the separator |
| NtpHttp.Fields | Core/Modules/ntp_over_http.c:153-156 | a successful walk of the format yields one number per field, one more than the separators |
| NtpHttp.ScanDateTime | Core/Modules/ntp_over_http.c:153-156 | sscanf converts all six fields exactly when the walk of `%d-%d-%dT%d:%d:%d` succeeds, and the six numbers are the walk's |
| NtpHttp.FieldsOfSteps | Core/Modules/ntp_over_http.c:153-156 | six successful steps of the format are one successful walk with their six values |
| NtpHttp.ScanFormatted | Core/Modules/ntp_over_http.c:153-156 | scanning `YYYY-MM-DDTHH:MM:SS` followed by any non-digit text gives back the six fields: the scan inverts the format |
| NtpHttp.ValueAfterKey | Core/Modules/ntp_over_http.c:145-148 | a value exists exactly when the key occurs; it is the text right after the first occurrence, and no earlier occurrence exists |
| NtpHttp.ParseTime | Core/Modules/ntp_over_http.c:145-172 | success exactly when the key occurs and the text after it walks the format; the struct is then filled from the six numbers; without the key the result is failure |
| NtpHttp.ParseTimeString | Core/Modules/ntp_over_http.h:14-24 | 0 on success and -1 on failure (if and only if); on success the struct is the parsed one, on failure it is untouched |
| NtpHttp.ParseTimeOfResponse | Core/Modules/ntp_over_http.c:143-164 | a response whose first key is followed by a well-formed date-time fills `date = [day, month, year % 100]` and `time = [second, minute, hour]`, ignoring trailing text such as `.12345Z` |
| NtpHttp.FieldsInRangeForValidInput | Core/Modules/ntp_over_http.c:51-55 | seconds, minutes and hours are in their documented ranges when the service sends a real clock time |
| NtpHttp.MalformedValueFails | Core/Modules/ntp_over_http.c:153-170 | a value after the key that does not walk the format gives -1 and leaves the struct untouched |
| NtpHttp.WrongFirstSeparatorFails | Core/Modules/ntp_over_http.c:153-170 | a first number not followed by '-' gives -1 and leaves the struct untouched, whatever follows |
| NtpHttp.MissingKeyFails | Core/Modules/ntp_over_http.c:145-173 | without the key the result is -1 and the struct untouched, whatever else the response holds |
| NtpHttp.MemoryStruct.constructor | Core/Modules/ntp_over_http.c:115-117 | malloc(1) and size 0 |
| NtpHttp.MemoryStruct.WriteMemoryCallback | Core/Modules/ntp_over_http.c:80-98 | when realloc fails, it returns 0 and changes nothing; otherwise size grows by exactly `size * nmemb`, the old bytes are kept, the new ones follow, a NUL follows them, and the byte count is returned |
| NtpHttp.Append | Core/Modules/ntp_over_http.c:85-93 | realloc keeps the old bytes and memcpy places the chunk right after them, with one byte left for the NUL |
| NtpHttp.Deliver | Core/Modules/ntp_over_http.c:127-134 | curl's chunks are accepted exactly when every chunk's realloc succeeds; the buffer then holds their concatenation, and it ends in a NUL exactly when it did before or some chunk was stored |
| NtpHttp.HttpTime | Core/Modules/ntp_over_http.h:26-35 | 0 exactly when curl initialises, every chunk is stored, the transfer succeeds and the body parses, and the struct is then the parsed one; otherwise -1 with the struct untouched |
| NtpHttp.GetHttpTime | Core/Modules/ntp_over_http.c:110-187 | the corrected get_http_time, which clears the byte `malloc(1)` returns: its result and struct are `HttpTime` of the transfer in every case |
| NtpHttp.GetHttpTimeAsWritten | Core/Modules/ntp_over_http.c:110-187 | as written, the buffer handed to strstr is unterminated exactly when the transfer succeeds with no chunk stored and the allocator's byte is not NUL; in every other case the result is `HttpTime` of the transfer |
| Dht11.Examined | Core/Modules/dht11Driver.c:26-41 | at most 85 transitions are examined, and the loop stops at the first one whose counter reaches 255 |
| Dht11.BitsUpToLength | Core/Modules/dht11Driver.c:44-50 | only even transitions from the fourth on store a bit, one each |
| Dht11.Bits | Core/Modules/dht11Driver.c:26-50 | the bits received are one per even transition from the fourth on, up to the first timeout |
| Dht11.Accumulate | Core/Modules/dht11Driver.c:46-48 | five ints, and every element whose group of 8 bits has not begun is still 0 |
| Dht11.AccumulateGroups | Core/Modules/dht11Driver.c:46-48 | element `k` holds bits `8k .. 8k+7`, most significant bit first |
| Dht11.AccumulateBytes | Core/Modules/dht11Driver.c:46-48 | every element of a frame of at most 40 bits is a byte |
| Dht11.Checksum | Core/Modules/dht11Driver.c:56 | the checksum is a byte congruent to the sum of the first four elements modulo 256 |
| Dht11.Decode | Core/Modules/dht11Driver.c:44-60 | the error value exactly when fewer than 40 bits arrive or the checksum byte does not match; otherwise the five bytes the first 40 bits accumulate, with a matching checksum byte |
| Dht11.ValidReading | Core/Modules/dht11Driver.c:44-60 | a result that is not the error value has at least 40 bits and a matching checksum, and element `k` is stored bits `8k .. 8k+7` |
| Dht11.ReadingIsErrorOrBytes | Core/Modules/dht11Driver.c:55-60 | the result is the all-`-2000` error value or five bytes |
| Dht11.EarlyTimeoutIsError | Core/Modules/dht11Driver.c:26-60 | a timeout before transition 5 always gives the error value |
| Dht11.NoTimeoutStoresFortyOneBits | Core/Modules/dht11Driver.c:26-50 | with no timeout over the 85 transitions of `MAXTIMINGS` (dht11Driver.h line 8), 41 bits are stored and the 41st goes to index 5 |
| Dht11.InBoundsIffTimeout | Core/Modules/dht11Driver.c:26-50 | the as-written stores stay inside the five ints if and only if some transition times out |
| Dht11.StoreBit | Core/Modules/dht11Driver.c:46-48 | element `j / 8` is shifted left once and its low bit set for a one, and nothing else changes |
| Dht11.Validate | Core/Modules/dht11Driver.c:55-60 | with fewer than 40 stores, or a checksum byte other than the low byte of the sum of the other four, all five become -2000; otherwise nothing changes |
| Dht11.StoreAsWritten | Core/Modules/dht11Driver.c:43-50 | one as-written step before the first timeout appends the transition's bit, if it carries one, to the stored bits in the array |
| Dht11.CollectAsWritten | Core/Modules/dht11Driver.c:26-51 | as written, under the precondition that at most 40 bits arrive, `j` is the number of bits received and the array holds them |
| Dht11.ReadDht11DatAsWritten | Core/Modules/dht11Driver.c:8-62 | as written, under the same precondition, the five ints are `Decode` of the counters |
| Dht11.Store | Core/Modules/dht11Driver.c:43-50 | one step with the store limited to 40 bits appends the bit while the frame is short |
| Dht11.Collect | Core/Modules/dht11Driver.c:26-51 | the loop with the bounded store leaves the first 40 received bits in the array |
| Dht11.ReadDht11Dat | Core/Modules/dht11Driver.c:8-62 | for every counter sequence the five ints are `Decode` of the counters: zeroed, then filled with the first 40 bits, then checked |

## Left out

- I/O and foreign code are left out, except for the values they hand the core:
  - serial reads, GPIO, wiringPi, `fopen`, `mkdir` and `access`;
  - printing, including the websocket simulation in server/server.py, which only prints;
  - cJSON, curl_global_init/cleanup, `free`, `json.load`, the watchdog `Observer`, and the DOM text and class updates in page/app.js.
- The concurrency between the NTP timer thread, the button flag and the main loop is left out; their flag writes are calls between iterations.
- Floating point is left out: `%f` in main.c, `toFixed(1)` in app.js, and the NTP `strftime` strings.
- Clocks and timestamps are left out: `time.time()` is a parameter, and log timestamps and `localtime`/`strftime` are not modelled.
- The sensor rows that updateSensorDisplay renders are not modelled; only its log entry is.
- Producer.Dirname: glibc's special case for a leading `//` is not modelled; POSIX dirname is. A NULL from `strdup` (Core/main.c:89-114) is not modelled: allocation never fails here.
- NtpHttp.MemoryStruct.constructor: a NULL from `malloc(1)` (Core/Modules/ntp_over_http.c:116) is not modelled: allocation never fails here, while realloc failures in the callback are.
- NtpHttp.ScanInt: C `int` overflow in `%d` is not modelled, because the integers are unbounded.
- NtpHttp.MemoryStruct.WriteMemoryCallback: `size * nmemb` and `size + realsize + 1` do not wrap around as `size_t` would; the sizes are unbounded.
- NtpHttp.ScanDateTime: only the return value 6 matters in the source, so partial conversion counts are not modelled.
- NtpHttp.GetHttpTime: this is the corrected version, which clears the allocator's byte; the source as written is `NtpHttp.GetHttpTimeAsWritten`, whose unterminated case is reported rather than given a C meaning.
- Pipeline.WatchedDir: `Path.resolve()` is taken to give an absolute path without `.`, `..`, symbolic links or trailing slashes, for which `parent` is `dirname`; resolving itself is not modelled. When the two parents reach `/`, the model gives `//tmp` where pathlib gives `/tmp`.
- Producer.Emit: the NULL results of `cJSON_CreateObject` and `cJSON_Print` (Core/main.c:217, 220, 238, 242, 263, 269), on which the source skips the write, are not modelled; a branch that builds a document always writes it.
- Dashboard.SensorLabel: only ASCII letters are upper-cased, because `toUpperCase` would change other scripts too, and there is no Unicode case mapping here. The inherited names are those `Object.prototype` holds in current engines, rendered as engines print them.
- Dashboard.HasKey: keys inherited from `Object.prototype` are not modelled in `in` and property reads on polling data; only the fixed keys the script reads are, and `Dashboard.SensorLabel` is where inherited names are modelled.
- Dashboard.Fetch: the rendered message of the thrown `Error` is not modelled; the entry records the HTTP status. String conversions never throw here: a value such as `{"toString": 1}` under `date` (page/app.js:62-63) or a sensor value (page/app.js:87) throws a TypeError in the script, which skips updateAlarmDisplay and logs CRITICAL, and that path is not modelled.
- Dashboard.DashboardState.constructor: the page's markup is reduced to whether the toggle button exists and whether the initial alarm status text contains "Awaiting".
- Dht11.ReadDht11DatAsWritten: the 41st store to `dat[5]` has no meaning, so the as-written method requires that at most 40 bits arrive, which holds exactly when a timeout ends the loop early (`Dht11.InBoundsIffTimeout`).
- Core/Modules/force_ntp_sync.c is not part of this model; its success is taken as given in `Producer.Producer.constructor`.
- The React captive portal, backend/server.js and the GPIO handlers are not part of this model.

## Findings

| source | as written | input that shows it | evidently intended | confidence | as-written member | corrected member |
|---|---|---|---|---|---|---|
| Core/Modules/dht11Driver.c:26-50 | every even transition from 4 to 84 stores a bit into `dht11_dat[j / 8]` | 85 transitions without a timeout: the 41st bit goes to `dht11_dat[5]`, past the five ints | keep at most the 40 bits of a frame | high, not executed | Dht11.NoTimeoutStoresFortyOneBits | Dht11.ReadDht11Dat |
| Core/Modules/ntp_over_http.c:116-145 | `malloc(1)` is never written when curl delivers no body, and `strstr` reads it as a C string | a successful transfer with an empty body: the only byte is whatever the allocator left, so no NUL is guaranteed | clear the first byte after `malloc(1)`, so an empty body is the empty string | medium, not executed | NtpHttp.GetHttpTimeAsWritten | NtpHttp.GetHttpTime |
| page/app.js:156-166 | `updateAlarmDisplay(data['alarm.json'])` receives the whole entry, while the NTP and sensor branches receive `.data` | the response `{"alarm.json": {"state": "ALARM_STOP", "data": {"alarm_stopped": true}}}`, the `{state, data}` shape the other two branches read: no `alarm_stopped` key is found, so the alarm is never disarmed | pass `data['alarm.json'].data`, as the other two files do | medium, not executed | Dashboard.WrappedAlarmEntryNeverDisarms | Dashboard.UnwrappedAlarmEntryDisarms |
| Core/main.c:34 | the loop reads `extern volatile bool button_press`, while the button ISR sets `volatile int button_flag` (Core/Modules/btn_handler.c:9-13, declared in Core/Modules/btn_handler.h:12) and no file shown here defines `button_press` | a button press: the ISR sets `button_flag`, `button_press` is never set, so no `alarm.json` is ever written; linking also needs a definition of `button_press` that no file shown here provides | the loop reads and clears the flag the ISR sets | medium, not executed | Producer.NoAlarmWithoutPress | Producer.Producer.PressButton |
