/**
 * The dashboard script of page/app.js without its DOM: the local alarm flag
 * (`isAlarmActive`), the newest-first log capped at 50 entries, the handlers
 * that change them, the dispatch of one polling response, and the label a
 * sensor key is shown under.
 *
 * A log line is modelled by its level and a `Message` naming which line it is
 * together with the values interpolated into it; the timestamp and the
 * rendered text are left out. JSON values are `JsValue`, with integral
 * numbers only.
 */
module Dashboard {
  import opened Common

  /** The log list keeps at most this many entries. */
  const LogCapacity: nat := 50

  datatype Level = Info | AlarmLevel | Update | Error | Warn | Polling | Critical | AlarmEvent

  /** Why a poll ended in the catch block. */
  datatype Cause = HttpStatus(status: int) | Thrown(message: string)

  datatype Message =
    | AlarmChanged(armed: bool, source: string)
    | NtpUpdated | NtpInvalid
    | SensorUpdated | SensorInvalid
    | AlarmForcedOff | AlarmNotFound | AlarmInvalid
    | HttpError(status: int, statusText: string)
    | Fetched(files: nat)
    | PollingError(cause: Cause)
    | AlreadyActive | ButtonMissing | Loaded

  datatype Entry = Entry(level: Level, message: Message)

  /** The TypeError Object.keys throws for a null polling body. */
  const NullConversion: string := "Cannot convert undefined or null to object"

  // ---------------------------------------------------------------------------
  // addLog (lines 17-26)
  // ---------------------------------------------------------------------------

  /**
   * Prepend the entry; when that makes the list longer than 50, remove the
   * last (oldest) child. The rest of the list keeps its order.
   */
  function AddEntry(log: seq<Entry>, e: Entry): (r: seq<Entry>)
    ensures r != [] && r[0] == e && r[1..] <= log
    ensures |log| < LogCapacity ==> |r| == |log| + 1
    ensures |log| >= LogCapacity ==> |r| == |log|
  {
    var l := [e] + log;
    if |l| > LogCapacity then l[..|l| - 1] else l
  }

  /**
   * addLog called with each of `es` in turn: the last one ends up at the
   * head, and a list of at most 50 grows by one per call until it holds 50.
   */
  function AddAll(log: seq<Entry>, es: seq<Entry>): (r: seq<Entry>)
    ensures es != [] ==> r != [] && r[0] == es[|es| - 1]
    ensures |log| <= LogCapacity ==> |r| == Min(|log| + |es|, LogCapacity)
  {
    if es == [] then log else AddEntry(AddAll(log, es[..|es| - 1]), es[|es| - 1])
  }

  /** Logging two runs of entries is logging the first and then the second. */
  lemma {:induction false} AddAllAppend(log: seq<Entry>, a: seq<Entry>, b: seq<Entry>)
    ensures AddAll(log, a + b) == AddAll(AddAll(log, a), b)
  {
    if b != [] {
      var ab := a + b;
      assert ab[..|ab| - 1] == a + b[..|b| - 1];
      assert ab[|ab| - 1] == b[|b| - 1];
      AddAllAppend(log, a, b[..|b| - 1]);
    } else {
      assert a + b == a;
    }
  }

  lemma AddAllOne(log: seq<Entry>, e: Entry)
    ensures AddAll(log, [e]) == AddEntry(log, e)
  {
    assert [e][..0] == [];
  }

  lemma AddAllAtMostOne(log: seq<Entry>, es: seq<Entry>)
    requires |es| <= 1
    ensures AddAll(log, es) == if es == [] then log else AddEntry(log, es[0])
  {
    if es != [] {
      assert es == [es[0]];
      AddAllOne(log, es[0]);
    }
  }

  function Reverse<T>(s: seq<T>): (r: seq<T>)
    ensures |r| == |s|
    ensures forall i | 0 <= i < |s| :: r[i] == s[|s| - 1 - i]
  {
    if s == [] then [] else [s[|s| - 1]] + Reverse(s[..|s| - 1])
  }

  /**
   * From a list of at most 50 entries, any run of addLog calls leaves the 50
   * newest entries, newest first: the most recent call's entry at the head
   * and what falls off is always the oldest.
   */
  lemma {:induction false} LogWindow(log: seq<Entry>, es: seq<Entry>)
    requires |log| <= LogCapacity
    ensures AddAll(log, es) == (Reverse(es) + log)[..Min(|es| + |log|, LogCapacity)]
  {
    if es != [] {
      var pre, e := es[..|es| - 1], es[|es| - 1];
      LogWindow(log, pre);
      var w := (Reverse(pre) + log)[..Min(|pre| + |log|, LogCapacity)];
      assert Reverse(es) == [e] + Reverse(pre);
      var n := Min(|pre| + |log|, LogCapacity);
      assert ([e] + w)[..Min(n + 1, LogCapacity)] == (Reverse(es) + log)[..Min(|es| + |log|, LogCapacity)];
    }
  }

  /** While the list has room for them, the entries are simply prepended, newest first. */
  lemma AddAllWithRoom(log: seq<Entry>, es: seq<Entry>)
    requires |log| + |es| <= LogCapacity
    ensures AddAll(log, es) == Reverse(es) + log
  {
    LogWindow(log, es);
  }

  // ---------------------------------------------------------------------------
  // JSON values as the script sees them
  // ---------------------------------------------------------------------------

  datatype JsValue =
    | Undefined
    | Null
    | Bool(b: bool)
    | Num(n: int)
    | Str(s: string)
    | Arr(items: seq<JsValue>)
    | Obj(props: map<string, JsValue>)

  /** JavaScript truthiness. */
  predicate Truthy(v: JsValue)
  {
    match v
    case Undefined => false
    case Null => false
    case Bool(b) => b
    case Num(n) => n != 0
    case Str(s) => s != []
    case Arr(_) => true
    case Obj(_) => true
  }

  /** `typeof v === 'object'` */
  predicate IsObjectType(v: JsValue)
  {
    v.Null? || v.Arr? || v.Obj?
  }

  /**
   * `key in v` and `v[key]` for the non-index keys the script uses ("ntp.json",
   * "sensor.json", "alarm.json", "data", "alarm_stopped"): only a plain object's
   * own properties can hold them.
   */
  predicate HasKey(v: JsValue, key: string)
  {
    v.Obj? && key in v.props
  }

  function Get(v: JsValue, key: string): (r: JsValue)
    ensures !HasKey(v, key) ==> r == Undefined
  {
    if HasKey(v, key) then v.props[key] else Undefined
  }

  /** Object.keys(v).length for a non-null body. */
  function KeyCount(v: JsValue): nat
  {
    match v
    case Str(s) => |s|
    case Arr(items) => |items|
    case Obj(props) => |props|
    case _ => 0
  }

  /** What `fetch('/data')` and `response.json()` give. */
  datatype Response =
    | NotOk(status: int, statusText: string)
    | Rejected(message: string)       // fetch or response.json() threw
    | Body(data: JsValue)

  // ---------------------------------------------------------------------------
  // The handlers, on the alarm flag and the log
  // ---------------------------------------------------------------------------

  datatype View = View(armed: bool, log: seq<Entry>)

  predicate Bounded(v: View)
  {
    |v.log| <= LogCapacity
  }

  function Log(v: View, level: Level, m: Message): (r: View)
    ensures r.armed == v.armed && r.log == AddEntry(v.log, Entry(level, m))
    ensures Bounded(v) ==> Bounded(r)
  {
    View(v.armed, AddEntry(v.log, Entry(level, m)))
  }

  /**
   * setAlarmVisualState (lines 32-56): afterwards the flag is `active`; one
   * ALARM entry is logged on a real transition and nothing when the state
   * already matches.
   */
  function SetAlarm(v: View, active: bool, source: string): (r: View)
    ensures r.armed == active
    ensures v.armed == active ==> r.log == v.log
    ensures v.armed != active ==> r.log == AddEntry(v.log, Entry(AlarmLevel, AlarmChanged(active, source)))
    ensures Bounded(v) ==> Bounded(r)
  {
    if active && !v.armed then Log(View(true, v.log), AlarmLevel, AlarmChanged(true, source))
    else if !active && v.armed then Log(View(false, v.log), AlarmLevel, AlarmChanged(false, source))
    else v
  }

  /** The toggle button's click handler (lines 178-190): it only ever arms. */
  function Click(v: View): (r: View)
    ensures r.armed
    ensures !v.armed ==> r.log == AddEntry(v.log, Entry(AlarmLevel, AlarmChanged(true, "Button Click")))
    ensures v.armed ==> r.log == AddEntry(v.log, Entry(Info, AlreadyActive))
    ensures Bounded(v) ==> Bounded(r)
  {
    if !v.armed then SetAlarm(v, true, "Button Click") else Log(v, Info, AlreadyActive)
  }

  /** The guard shared by updateNTPDisplay and updateSensorDisplay. */
  predicate IsPayload(data: JsValue)
  {
    Truthy(data) && IsObjectType(data)
  }

  /** updateNTPDisplay (lines 60-68), on the log. */
  function NtpDisplay(v: View, data: JsValue): (r: View)
    ensures r.armed == v.armed && |r.log| > 0
    ensures r.log[0] == if IsPayload(data) then Entry(Update, NtpUpdated) else Entry(Error, NtpInvalid)
    ensures r.log == AddEntry(v.log, r.log[0])
    ensures Bounded(v) ==> Bounded(r)
  {
    if IsPayload(data) then Log(v, Update, NtpUpdated) else Log(v, Error, NtpInvalid)
  }

  /** updateSensorDisplay (lines 70-101), on the log. */
  function SensorDisplay(v: View, data: JsValue): (r: View)
    ensures r.armed == v.armed && |r.log| > 0
    ensures r.log[0] == if IsPayload(data) then Entry(Update, SensorUpdated) else Entry(Error, SensorInvalid)
    ensures r.log == AddEntry(v.log, r.log[0])
    ensures Bounded(v) ==> Bounded(r)
  {
    if IsPayload(data) then Log(v, Update, SensorUpdated) else Log(v, Error, SensorInvalid)
  }

  /** The only value that disarms: an object holding `alarm_stopped === true`. */
  predicate Disarms(data: JsValue)
  {
    IsPayload(data) && HasKey(data, "alarm_stopped") && Get(data, "alarm_stopped") == Bool(true)
  }

  /**
   * updateAlarmDisplay (lines 103-136). The call to setAlarmVisualState(false,
   * 'Initial Load') at line 133 only runs while disarmed, where it changes
   * neither the flag nor the log.
   */
  function AlarmDisplay(v: View, data: JsValue): (r: View)
    ensures r.armed == (v.armed && !Disarms(data))
    ensures Bounded(v) ==> Bounded(r)
    ensures !IsPayload(data) || !HasKey(data, "alarm_stopped") ==>
              r.log == AddEntry(v.log, Entry(Warn, if Truthy(data) then AlarmInvalid else AlarmNotFound))
    ensures IsPayload(data) && HasKey(data, "alarm_stopped") && !Disarms(data) ==> r == v
    ensures Disarms(data) ==> r.log == AddEntry(SetAlarm(v, false, "JSON Control").log, Entry(AlarmEvent, AlarmForcedOff))
  {
    if IsPayload(data) && HasKey(data, "alarm_stopped") then
      if Get(data, "alarm_stopped") == Bool(true) then
        Log(SetAlarm(v, false, "JSON Control"), AlarmEvent, AlarmForcedOff)
      else v
    else
      Log(v, Warn, if !Truthy(data) then AlarmNotFound else AlarmInvalid)
  }

  /**
   * What updateAlarmDisplay receives from a polling body. As written it is the
   * whole `alarm.json` entry; `unwrap` gives the entry's `.data`, the way the
   * NTP and sensor updates receive theirs.
   */
  function AlarmArgument(data: JsValue, unwrap: bool): JsValue
  {
    var entry := Get(data, "alarm.json");
    if unwrap then Get(entry, "data") else entry
  }

  /** The polling response disarms exactly when what reaches updateAlarmDisplay disarms. */
  predicate ResponseDisarms(resp: Response, unwrap: bool)
  {
    resp.Body? && resp.data != Null && resp.data != Undefined && Disarms(AlarmArgument(resp.data, unwrap))
  }

  // The entries each step of a poll logs, oldest first.

  /** updateNTPDisplay's entry, when the body's `ntp.json` is truthy. */
  function NtpEntries(data: JsValue): (r: seq<Entry>)
    ensures |r| <= 1
    ensures r != [] <==> Truthy(Get(data, "ntp.json"))
    ensures r != [] ==> (r[0].level == Update <==> IsPayload(Get(Get(data, "ntp.json"), "data")))
  {
    var ntp := Get(data, "ntp.json");
    if !Truthy(ntp) then []
    else if IsPayload(Get(ntp, "data")) then [Entry(Update, NtpUpdated)]
    else [Entry(Error, NtpInvalid)]
  }

  /** updateSensorDisplay's entry, when the body's `sensor.json` is truthy. */
  function SensorEntries(data: JsValue): (r: seq<Entry>)
    ensures |r| <= 1
    ensures r != [] <==> Truthy(Get(data, "sensor.json"))
    ensures r != [] ==> (r[0].level == Update <==> IsPayload(Get(Get(data, "sensor.json"), "data")))
  {
    var sensor := Get(data, "sensor.json");
    if !Truthy(sensor) then []
    else if IsPayload(Get(sensor, "data")) then [Entry(Update, SensorUpdated)]
    else [Entry(Error, SensorInvalid)]
  }

  /**
   * updateAlarmDisplay's entries while the flag is `armed`: the ALARM line of
   * a real transition and the ALARM_EVENT line for `alarm_stopped === true`,
   * nothing for another `alarm_stopped`, and one WARN line otherwise.
   */
  function AlarmEntries(armed: bool, arg: JsValue): (r: seq<Entry>)
    ensures r == [] <==> IsPayload(arg) && HasKey(arg, "alarm_stopped") && !Disarms(arg)
    ensures |r| == 2 <==> armed && Disarms(arg)
    ensures Disarms(arg) ==> r[|r| - 1] == Entry(AlarmEvent, AlarmForcedOff)
    ensures !(IsPayload(arg) && HasKey(arg, "alarm_stopped")) ==> |r| == 1 && r[0].level == Warn
  {
    if IsPayload(arg) && HasKey(arg, "alarm_stopped") then
      if Get(arg, "alarm_stopped") == Bool(true) then
        (if armed then [Entry(AlarmLevel, AlarmChanged(false, "JSON Control"))] else []) + [Entry(AlarmEvent, AlarmForcedOff)]
      else []
    else [Entry(Warn, if Truthy(arg) then AlarmInvalid else AlarmNotFound)]
  }

  /** Everything one call of fetchData logs, in order. */
  function FetchEntries(armed: bool, resp: Response, unwrap: bool): (r: seq<Entry>)
    ensures r != [] && (r[|r| - 1].level == Critical <==> !resp.Body? || resp.data == Null || resp.data == Undefined)
    ensures resp.Body? && resp.data != Null && resp.data != Undefined ==> r[0] == Entry(Polling, Fetched(KeyCount(resp.data)))
  {
    match resp
    case NotOk(status, statusText) =>
      [Entry(Error, HttpError(status, statusText)), Entry(Critical, PollingError(HttpStatus(status)))]
    case Rejected(message) => [Entry(Critical, PollingError(Thrown(message)))]
    case Body(data) =>
      if data == Null || data == Undefined then [Entry(Critical, PollingError(Thrown(NullConversion)))]
      else [Entry(Polling, Fetched(KeyCount(data)))] + (NtpEntries(data) + SensorEntries(data) + AlarmEntries(armed, AlarmArgument(data, unwrap)))
  }

  lemma AlarmDisplayEntries(v: View, arg: JsValue)
    ensures AlarmDisplay(v, arg).log == AddAll(v.log, AlarmEntries(v.armed, arg))
  {
    var es := AlarmEntries(v.armed, arg);
    if Disarms(arg) && v.armed {
      var e1, e2 := Entry(AlarmLevel, AlarmChanged(false, "JSON Control")), Entry(AlarmEvent, AlarmForcedOff);
      assert es == [e1, e2] && es[..1] == [e1];
      AddAllOne(v.log, e1);
    } else if es != [] {
      AddAllOne(v.log, es[0]);
    }
  }

  /** The NTP and sensor updates of a polling body, which never touch the flag. */
  function Updates(v: View, data: JsValue): (r: View)
    ensures r.armed == v.armed
    ensures r.log == AddAll(v.log, NtpEntries(data) + SensorEntries(data))
    ensures Bounded(v) ==> Bounded(r)
  {
    var ntp := Get(data, "ntp.json");
    var sensor := Get(data, "sensor.json");
    var w1 := if Truthy(ntp) then NtpDisplay(v, Get(ntp, "data")) else v;
    var w2 := if Truthy(sensor) then SensorDisplay(w1, Get(sensor, "data")) else w1;
    AddAllAtMostOne(v.log, NtpEntries(data));
    AddAllAtMostOne(w1.log, SensorEntries(data));
    AddAllAppend(v.log, NtpEntries(data), SensorEntries(data));
    w2
  }

  /**
   * The body branch of fetchData after the POLLING entry: the three updates
   * in order. The flag is cleared exactly when the alarm argument disarms,
   * and the log gains the NTP, sensor and alarm entries in that order.
   */
  function Dispatch(v: View, data: JsValue, unwrap: bool): (r: View)
    ensures !unwrap ==> r.armed == (v.armed && !Disarms(Get(data, "alarm.json")))
    ensures unwrap ==> r.armed == (v.armed && !Disarms(Get(Get(data, "alarm.json"), "data")))
    ensures r.log == AddAll(v.log, NtpEntries(data) + SensorEntries(data) + AlarmEntries(v.armed, AlarmArgument(data, unwrap)))
    ensures Bounded(v) ==> Bounded(r)
  {
    var w := Updates(v, data);
    var arg := AlarmArgument(data, unwrap);
    AlarmDisplayEntries(w, arg);
    AddAllAppend(v.log, NtpEntries(data) + SensorEntries(data), AlarmEntries(v.armed, arg));
    AlarmDisplay(w, arg)
  }

  /**
   * fetchData (lines 141-174). A non-ok response logs the ERROR line and then,
   * through the thrown Error, the CRITICAL line; a rejected fetch or body, or
   * a null body, logs only the CRITICAL line. The script as written is
   * `unwrap == false`.
   */
  function Fetch(v: View, resp: Response, unwrap: bool): (r: View)
    ensures r.armed == (v.armed && !ResponseDisarms(resp, unwrap))
    ensures r.log == AddAll(v.log, FetchEntries(v.armed, resp, unwrap))
    ensures Bounded(v) ==> Bounded(r)
    ensures |r.log| > 0
  {
    match resp
    case NotOk(status, statusText) =>
      var e1, e2 := Entry(Error, HttpError(status, statusText)), Entry(Critical, PollingError(HttpStatus(status)));
      assert [e1, e2][..1] == [e1];
      AddAllOne(v.log, e1);
      Log(Log(v, Error, HttpError(status, statusText)), Critical, PollingError(HttpStatus(status)))
    case Rejected(message) =>
      AddAllOne(v.log, Entry(Critical, PollingError(Thrown(message))));
      Log(v, Critical, PollingError(Thrown(message)))
    case Body(data) =>
      if data == Null || data == Undefined then
        AddAllOne(v.log, Entry(Critical, PollingError(Thrown(NullConversion))));
        Log(v, Critical, PollingError(Thrown(NullConversion)))
      else
        var p := Entry(Polling, Fetched(KeyCount(data)));
        AddAllOne(v.log, p);
        AddAllAppend(v.log, [p], NtpEntries(data) + SensorEntries(data) + AlarmEntries(v.armed, AlarmArgument(data, unwrap)));
        Dispatch(Log(v, Polling, Fetched(KeyCount(data))), data, unwrap)
  }

  /** A run of polls never arms: each response can only keep the flag or clear it. */
  function FetchAll(v: View, resps: seq<Response>, unwrap: bool): (r: View)
    ensures r.armed ==> v.armed
    ensures Bounded(v) ==> Bounded(r)
  {
    if resps == [] then v else Fetch(FetchAll(v, resps[..|resps| - 1], unwrap), resps[|resps| - 1], unwrap)
  }

  /**
   * A failing HTTP status leaves the flag alone and puts CRITICAL, then
   * ERROR, at the head of the log; the oldest entries fall off past 50.
   */
  lemma NonOkResponse(v: View, status: int, statusText: string)
    requires Bounded(v)
    ensures Fetch(v, NotOk(status, statusText), false).armed == v.armed
    ensures Fetch(v, NotOk(status, statusText), false).log ==
              ([Entry(Critical, PollingError(HttpStatus(status))), Entry(Error, HttpError(status, statusText))] + v.log)[..Min(|v.log| + 2, LogCapacity)]
  {
    var es := [Entry(Error, HttpError(status, statusText)), Entry(Critical, PollingError(HttpStatus(status)))];
    LogWindow(v.log, es);
    assert Reverse(es) == [es[1], es[0]];
  }

  /** An `alarm.json` entry in the `{state, data}` shape, with `{"alarm_stopped": true}` under `data`. */
  function WrappedAlarmResponse(others: map<string, JsValue>, state: JsValue): Response
  {
    Body(Obj(others["alarm.json" := Obj(map["state" := state, "data" := Obj(map["alarm_stopped" := Bool(true)])])]))
  }

  /**
   * As written, such an entry never disarms: updateAlarmDisplay receives the
   * whole entry, finds no `alarm_stopped` key and logs a WARN.
   */
  lemma WrappedAlarmEntryNeverDisarms(v: View, others: map<string, JsValue>, state: JsValue)
    ensures Fetch(v, WrappedAlarmResponse(others, state), false).armed == v.armed
    ensures !ResponseDisarms(WrappedAlarmResponse(others, state), false)
  {
    var entry := Obj(map["state" := state, "data" := Obj(map["alarm_stopped" := Bool(true)])]);
    assert AlarmArgument(WrappedAlarmResponse(others, state).data, false) == entry;
    assert !HasKey(entry, "alarm_stopped");
  }

  /** Handing updateAlarmDisplay the entry's `.data` makes the same response disarm. */
  lemma UnwrappedAlarmEntryDisarms(v: View, others: map<string, JsValue>, state: JsValue)
    ensures !Fetch(v, WrappedAlarmResponse(others, state), true).armed
    ensures ResponseDisarms(WrappedAlarmResponse(others, state), true)
  {
    var payload := Obj(map["alarm_stopped" := Bool(true)]);
    var entry := Obj(map["state" := state, "data" := payload]);
    assert Get(WrappedAlarmResponse(others, state).data, "alarm.json") == entry;
    assert Get(entry, "data") == payload;
    assert Disarms(payload);
  }

  /** As written, only the bare payload `{"alarm_stopped": true}` as the entry disarms. */
  lemma BareAlarmEntryDisarms(v: View, others: map<string, JsValue>)
    ensures !Fetch(v, Body(Obj(others["alarm.json" := Obj(map["alarm_stopped" := Bool(true)])])), false).armed
  {
    var data := Obj(others["alarm.json" := Obj(map["alarm_stopped" := Bool(true)])]);
    assert Get(data, "alarm.json") == Obj(map["alarm_stopped" := Bool(true)]);
  }

  // ---------------------------------------------------------------------------
  // A page without the toggle button (lines 10, 191-194)
  // ---------------------------------------------------------------------------

  /** The TypeError that writing `textContent` on the missing button throws. */
  const NullButtonWrite: string := "Cannot set properties of null (setting 'textContent')"

  /**
   * updateAlarmDisplay when `toggleAlarmBtn` is null, with whether it threw.
   * Every branch of setAlarmVisualState writes the button's text before it
   * touches the flag or the log, so each call of it throws there. `awaiting`
   * says whether the alarm status text contains "Awaiting"; on such a page
   * only the throwing branches could change that text, so it keeps its value
   * from the page.
   */
  function ButtonlessAlarmDisplay(v: View, arg: JsValue, awaiting: bool): (r: (View, bool))
    ensures r.0.armed == v.armed
    ensures r.1 <==> Disarms(arg) || (!(IsPayload(arg) && HasKey(arg, "alarm_stopped")) && !v.armed && awaiting)
    ensures IsPayload(arg) && HasKey(arg, "alarm_stopped") ==> r.0 == v
    ensures !(IsPayload(arg) && HasKey(arg, "alarm_stopped")) ==>
              r.0.log == AddEntry(v.log, Entry(Warn, if Truthy(arg) then AlarmInvalid else AlarmNotFound))
    ensures Bounded(v) ==> Bounded(r.0)
  {
    if IsPayload(arg) && HasKey(arg, "alarm_stopped") then
      (v, Get(arg, "alarm_stopped") == Bool(true))
    else
      (Log(v, Warn, if !Truthy(arg) then AlarmNotFound else AlarmInvalid), !v.armed && awaiting)
  }

  /**
   * fetchData as written on a page without the toggle button. Nothing can
   * change the flag, and a response that would disarm instead ends in the
   * catch block's CRITICAL line for the TypeError.
   */
  function ButtonlessFetch(v: View, resp: Response, awaiting: bool): (r: View)
    ensures r.armed == v.armed
    ensures Bounded(v) ==> Bounded(r)
    ensures !resp.Body? || resp.data == Null || resp.data == Undefined ==> r == Fetch(v, resp, false)
    ensures (resp.Body? && resp.data != Null && resp.data != Undefined && !ResponseDisarms(resp, false) &&
             !InitialLoadThrows(v.armed, Get(resp.data, "alarm.json"), awaiting)) ==> r == Fetch(v, resp, false)
    ensures (resp.Body? && resp.data != Null && resp.data != Undefined &&
             InitialLoadThrows(v.armed, Get(resp.data, "alarm.json"), awaiting)) ==>
              r.log == AddAll(v.log, FetchEntries(v.armed, resp, false) + [Entry(Critical, PollingError(Thrown(NullButtonWrite)))])
    ensures ResponseDisarms(resp, false) ==>
              r.log == AddAll(v.log, [Entry(Polling, Fetched(KeyCount(resp.data)))] + NtpEntries(resp.data) +
                                     SensorEntries(resp.data) + [Entry(Critical, PollingError(Thrown(NullButtonWrite)))])
  {
    match resp
    case Body(data) =>
      if data == Null || data == Undefined then Fetch(v, resp, false)
      else
        var w := Updates(Log(v, Polling, Fetched(KeyCount(data))), data);
        var a := ButtonlessAlarmDisplay(w, Get(data, "alarm.json"), awaiting);
        PollEndingCritical(v, data);
        ButtonlessBody(v, data, awaiting);
        if a.1 then Log(a.0, Critical, PollingError(Thrown(NullButtonWrite))) else a.0
    case _ => Fetch(v, resp, false)
  }

  /**
   * Line 133 without the button: a value without `alarm_stopped` on a
   * disarmed page whose status still says "Awaiting" makes the
   * 'Initial Load' call throw.
   */
  predicate InitialLoadThrows(armed: bool, arg: JsValue, awaiting: bool)
  {
    !(IsPayload(arg) && HasKey(arg, "alarm_stopped")) && !armed && awaiting
  }

  /**
   * A body that does not disarm: without the button, updateAlarmDisplay logs
   * what it logs with it, and it throws exactly when the 'Initial Load' call
   * does, which adds the catch block's CRITICAL line on top.
   */
  lemma ButtonlessBody(v: View, data: JsValue, awaiting: bool)
    requires data != Null && data != Undefined
    ensures var w := Updates(Log(v, Polling, Fetched(KeyCount(data))), data);
            var arg := Get(data, "alarm.json");
            var a := ButtonlessAlarmDisplay(w, arg, awaiting);
            !Disarms(arg) ==>
              a.0 == Fetch(v, Body(data), false) && (a.1 <==> InitialLoadThrows(v.armed, arg, awaiting)) &&
              (a.1 ==> Log(a.0, Critical, PollingError(Thrown(NullButtonWrite))).log ==
                         AddAll(v.log, FetchEntries(v.armed, Body(data), false) + [Entry(Critical, PollingError(Thrown(NullButtonWrite)))]))
  {
    var c := Entry(Critical, PollingError(Thrown(NullButtonWrite)));
    var f := Fetch(v, Body(data), false);
    AddAllOne(f.log, c);
    AddAllAppend(v.log, FetchEntries(v.armed, Body(data), false), [c]);
  }

  /** The POLLING line, the NTP and sensor updates, then the CRITICAL line for the TypeError. */
  lemma PollEndingCritical(v: View, data: JsValue)
    ensures var p := Entry(Polling, Fetched(KeyCount(data)));
            var c := Entry(Critical, PollingError(Thrown(NullButtonWrite)));
            Log(Updates(Log(v, Polling, Fetched(KeyCount(data))), data), Critical, PollingError(Thrown(NullButtonWrite))).log ==
              AddAll(v.log, [p] + NtpEntries(data) + SensorEntries(data) + [c])
  {
    var p := Entry(Polling, Fetched(KeyCount(data)));
    var c := Entry(Critical, PollingError(Thrown(NullButtonWrite)));
    var w := Updates(Log(v, Polling, Fetched(KeyCount(data))), data);
    AddAllOne(v.log, p);
    AddAllOne(w.log, c);
    AddAllBetween(v.log, p, NtpEntries(data), SensorEntries(data), c);
  }

  /** Logging `p`, then `es`, then `c` is logging them all at once. */
  lemma AddAllBetween(log: seq<Entry>, p: Entry, n: seq<Entry>, s: seq<Entry>, c: Entry)
    ensures AddAll(AddAll(AddAll(log, [p]), n + s), [c]) == AddAll(log, [p] + n + s + [c])
  {
    AddAllAppend(log, [p], n + s);
    AddAllAppend(log, [p] + (n + s), [c]);
    assert [p] + (n + s) + [c] == [p] + n + s + [c];
  }

  /**
   * The bare disarming entry on a page without the button: the flag stays
   * and the poll ends in CRITICAL, where the page with the button clears the
   * flag and ends in ALARM_EVENT.
   */
  lemma ButtonlessDisarmIsCritical(v: View, others: map<string, JsValue>, awaiting: bool)
    ensures var resp := Body(Obj(others["alarm.json" := Obj(map["alarm_stopped" := Bool(true)])]));
            ButtonlessFetch(v, resp, awaiting).armed == v.armed &&
            ButtonlessFetch(v, resp, awaiting).log[0] == Entry(Critical, PollingError(Thrown(NullButtonWrite))) &&
            !Fetch(v, resp, false).armed && Fetch(v, resp, false).log[0] == Entry(AlarmEvent, AlarmForcedOff)
  {
    var data := Obj(others["alarm.json" := Obj(map["alarm_stopped" := Bool(true)])]);
    assert Get(data, "alarm.json") == Obj(map["alarm_stopped" := Bool(true)]);
  }

  // ---------------------------------------------------------------------------
  // The sensor label (line 90)
  // ---------------------------------------------------------------------------

  predicate IsUpper(c: char)
  {
    'A' <= c <= 'Z'
  }

  /** String.prototype.toUpperCase on one character, for the ASCII letters. */
  function UpperAscii(c: char): (u: char)
    ensures 'a' <= c <= 'z' ==> IsUpper(u) && u as int == c as int - 32
    ensures !('a' <= c <= 'z') ==> u == c
  {
    if 'a' <= c <= 'z' then (c as int - 32) as char else c
  }

  /** A character `/./` does not match. */
  predicate IsLineTerminator(c: char)
  {
    c == '\n' || c == '\r' || c == '\U{2028}' || c == '\U{2029}'
  }

  /** key.replace(/([A-Z])/g, ' $1') */
  function SpaceBeforeCapitals(key: string): (r: string)
    ensures |r| >= |key|
    ensures r != [] ==> !IsUpper(r[0])
  {
    if key == [] then []
    else (if IsUpper(key[0]) then [' ', key[0]] else [key[0]]) + SpaceBeforeCapitals(key[1..])
  }

  /** .replace(/^./, str => str.toUpperCase()) */
  function CapitalizeFirst(s: string): (r: string)
    ensures |r| == |s| && (s != [] ==> r[1..] == s[1..])
    ensures s != [] && !IsLineTerminator(s[0]) ==> r[0] == UpperAscii(s[0])
    ensures s != [] && IsLineTerminator(s[0]) ==> r == s
  {
    if s == [] || IsLineTerminator(s[0]) then s else [UpperAscii(s[0])] + s[1..]
  }

  /**
   * The properties every object inherits from Object.prototype: `sensorLabels[key]`
   * finds these too, and each of them is truthy.
   */
  const InheritedNames: set<string> := {
    "constructor", "hasOwnProperty", "isPrototypeOf", "propertyIsEnumerable",
    "toLocaleString", "toString", "valueOf", "__proto__",
    "__defineGetter__", "__defineSetter__", "__lookupGetter__", "__lookupSetter__"}

  /**
   * The text an inherited label renders as in the template: Object.prototype
   * itself for `__proto__`, the Object constructor, and otherwise a native
   * method under its own name.
   */
  function InheritedText(key: string): string
  {
    if key == "__proto__" then "[object Object]"
    else if key == "constructor" then "function Object() { [native code] }"
    else "function " + key + "() { [native code] }"
  }

  /**
   * The label of a sensor key: the fixed names first, then what the lookup
   * inherits, and the derived form otherwise.
   */
  function SensorLabel(key: string): (text: string)
    ensures key == "hum" ==> text == "Humidity"
    ensures key == "tempC" ==> text == "Temperature (°C)"
    ensures key == "mq7Adc" ==> text == "MQ7 ADC"
    ensures key in InheritedNames ==> text == InheritedText(key)
    ensures key !in {"hum", "tempC", "mq7Adc"} && key !in InheritedNames ==> text == CapitalizeFirst(SpaceBeforeCapitals(key))
  {
    if key == "hum" then "Humidity"
    else if key == "tempC" then "Temperature (°C)"
    else if key == "mq7Adc" then "MQ7 ADC"
    else if key in InheritedNames then InheritedText(key)
    else CapitalizeFirst(SpaceBeforeCapitals(key))
  }

  /** Drop each space that directly precedes a capital: the inverse of SpaceBeforeCapitals. */
  function Unspace(s: string): string
  {
    if s == [] then []
    else if |s| >= 2 && s[0] == ' ' && IsUpper(s[1]) then [s[1]] + Unspace(s[2..])
    else [s[0]] + Unspace(s[1..])
  }

  /** Inserting the spaces loses nothing: every key is recovered from its spaced form. */
  lemma {:induction false} UnspaceSpaceBeforeCapitals(key: string)
    ensures Unspace(SpaceBeforeCapitals(key)) == key
  {
    if key != [] {
      var rest := SpaceBeforeCapitals(key[1..]);
      UnspaceSpaceBeforeCapitals(key[1..]);
      if IsUpper(key[0]) {
        var s := [' ', key[0]] + rest;
        assert s[2..] == rest;
        assert Unspace(s) == [key[0]] + Unspace(rest);
      } else {
        var s := [key[0]] + rest;
        assert s[1..] == rest;
        assert rest != [] ==> !IsUpper(rest[0]);
        assert Unspace(s) == [key[0]] + Unspace(rest);
      }
      assert key == [key[0]] + key[1..];
    }
  }

  /** A spaced key never has a capital without a space right before it. */
  lemma {:induction false} CapitalsArePreceded(key: string)
    ensures forall i | 0 <= i < |SpaceBeforeCapitals(key)| && IsUpper(SpaceBeforeCapitals(key)[i]) ::
              i > 0 && SpaceBeforeCapitals(key)[i - 1] == ' '
  {
    if key != [] {
      CapitalsArePreceded(key[1..]);
      var rest := SpaceBeforeCapitals(key[1..]);
      var head := if IsUpper(key[0]) then [' ', key[0]] else [key[0]];
      var s := head + rest;
      assert forall i | |head| <= i < |s| :: s[i] == rest[i - |head|];
    }
  }

  /** A key that already starts with a capital gets a leading space, which upper-casing leaves in place. */
  lemma LeadingCapitalKey(key: string)
    requires key != [] && IsUpper(key[0]) && key !in {"hum", "tempC", "mq7Adc"}
    ensures SensorLabel(key)[..2] == [' ', key[0]]
  {
  }

  /** A camel-case key gets one space before its capital and an upper-case first letter. */
  lemma CamelCaseLabel()
    ensures SensorLabel("coPpm") == "Co Ppm"
  {
    SpaceStep('m', "");
    SpaceStep('p', "m");
    SpaceStep('P', "pm");
    SpaceStep('o', "Ppm");
    SpaceStep('c', "oPpm");
  }

  /** One character of SpaceBeforeCapitals. */
  lemma SpaceStep(c: char, rest: string)
    ensures SpaceBeforeCapitals([c] + rest) == (if IsUpper(c) then [' ', c] else [c]) + SpaceBeforeCapitals(rest)
  {
    assert ([c] + rest)[1..] == rest;
  }

  // ---------------------------------------------------------------------------
  // The script's closure state
  // ---------------------------------------------------------------------------

  class DashboardState {
    /** Whether `getElementById('toggle-alarm-btn')` found the button. */
    const buttonFound: bool
    /** Whether the page's alarm status text contains "Awaiting". */
    const awaiting: bool
    var isAlarmActive: bool
    var log: seq<Entry>

    function Snapshot(): View
      reads this
    {
      View(isAlarmActive, log)
    }

    /**
     * The DOMContentLoaded setup up to the first poll: disarmed, the CRITICAL
     * line when the toggle button is missing, then the INFO line.
     */
    constructor (buttonFound: bool, awaiting: bool)
      ensures this.buttonFound == buttonFound && this.awaiting == awaiting
      ensures !isAlarmActive
      ensures log == if buttonFound then [Entry(Info, Loaded)] else [Entry(Info, Loaded), Entry(Critical, ButtonMissing)]
    {
      this.buttonFound := buttonFound;
      this.awaiting := awaiting;
      isAlarmActive := false;
      log := [];
      new;
      if !buttonFound {
        AddLog(Critical, ButtonMissing);
      }
      AddLog(Info, Loaded);
    }

    method AddLog(level: Level, message: Message)
      modifies this`log
      ensures log == AddEntry(old(log), Entry(level, message))
    {
      log := [Entry(level, message)] + log;
      if |log| > LogCapacity {
        log := log[..|log| - 1];
      }
    }

    /** Without the button every branch throws at its first write to the button's text. */
    method SetAlarmVisualState(active: bool, source: string) returns (threw: bool)
      modifies this
      ensures threw == !buttonFound
      ensures Snapshot() == if buttonFound then SetAlarm(old(Snapshot()), active, source) else old(Snapshot())
    {
      if !buttonFound {
        return true;
      }
      threw := false;
      if active && !isAlarmActive {
        AddLog(AlarmLevel, AlarmChanged(true, source));
        isAlarmActive := true;
      } else if !active && isAlarmActive {
        AddLog(AlarmLevel, AlarmChanged(false, source));
        isAlarmActive := false;
      }
    }

    /** The click listener exists only when the button was found. */
    method OnToggleClick()
      requires buttonFound
      modifies this
      ensures Snapshot() == Click(old(Snapshot()))
    {
      if !isAlarmActive {
        var _ := SetAlarmVisualState(true, "Button Click");
      } else {
        AddLog(Info, AlreadyActive);
      }
    }

    method UpdateNtpDisplay(data: JsValue)
      modifies this
      ensures Snapshot() == NtpDisplay(old(Snapshot()), data)
    {
      if Truthy(data) && IsObjectType(data) {
        AddLog(Update, NtpUpdated);
      } else {
        AddLog(Error, NtpInvalid);
      }
    }

    method UpdateSensorDisplay(data: JsValue)
      modifies this
      ensures Snapshot() == SensorDisplay(old(Snapshot()), data)
    {
      if Truthy(data) && IsObjectType(data) {
        AddLog(Update, SensorUpdated);
      } else {
        AddLog(Error, SensorInvalid);
      }
    }

    /** `threw` is the TypeError of setAlarmVisualState, which leaves this function at once. */
    method UpdateAlarmDisplay(data: JsValue) returns (threw: bool)
      modifies this
      ensures buttonFound ==> !threw && Snapshot() == AlarmDisplay(old(Snapshot()), data)
      ensures !buttonFound ==> (Snapshot(), threw) == ButtonlessAlarmDisplay(old(Snapshot()), data, awaiting)
    {
      threw := false;
      if Truthy(data) && IsObjectType(data) && HasKey(data, "alarm_stopped") {
        if Get(data, "alarm_stopped") == Bool(true) {
          threw := SetAlarmVisualState(false, "JSON Control");
          if threw {
            return;
          }
          AddLog(AlarmEvent, AlarmForcedOff);
        }
      } else {
        if !Truthy(data) {
          AddLog(Warn, AlarmNotFound);
        } else {
          AddLog(Warn, AlarmInvalid);
        }
        if !isAlarmActive && awaiting {
          threw := SetAlarmVisualState(false, "Initial Load");
        }
      }
    }

    /** fetchData as written: the alarm entry is passed whole, and a TypeError lands in the catch block. */
    method FetchData(resp: Response)
      modifies this
      ensures Snapshot() == if buttonFound then Fetch(old(Snapshot()), resp, false) else ButtonlessFetch(old(Snapshot()), resp, awaiting)
    {
      match resp {
        case NotOk(status, statusText) =>
          AddLog(Error, HttpError(status, statusText));
          AddLog(Critical, PollingError(HttpStatus(status)));
        case Rejected(message) =>
          AddLog(Critical, PollingError(Thrown(message)));
        case Body(data) =>
          if data == Null || data == Undefined {
            AddLog(Critical, PollingError(Thrown(NullConversion)));
          } else {
            AddLog(Polling, Fetched(KeyCount(data)));
            var ntp := Get(data, "ntp.json");
            if Truthy(ntp) {
              UpdateNtpDisplay(Get(ntp, "data"));
            }
            var sensor := Get(data, "sensor.json");
            if Truthy(sensor) {
              UpdateSensorDisplay(Get(sensor, "data"));
            }
            var threw := UpdateAlarmDisplay(Get(data, "alarm.json"));
            if threw {
              AddLog(Critical, PollingError(Thrown(NullButtonWrite)));
            }
          }
      }
    }
  }
}
