/**
 * The file-change ingestion gate of server/server.py: the fixed filename
 * classifier and the `on_modified` handler (suffix filter, per-path debounce,
 * a single decode attempt, classification by basename).
 *
 * Time is an integer clock in milliseconds, so the default window of 0.5 s
 * is 500. Reading and decoding the file is an input to the handler.
 */
module Server {
  import opened Common

  /** The logical states of StateMachine.STATE_MAP, plus the fallback. */
  datatype Tag = NtpUpdate | SensorUpdate | AlarmStop | Unknown

  const StateMap: map<string, Tag> :=
    map["ntp.json" := NtpUpdate, "sensor.json" := SensorUpdate, "alarm.json" := AlarmStop]

  /** StateMachine.get_state: look the name up in the table, `Unknown` for anything else. */
  function GetState(filename: string): (t: Tag)
    ensures t == NtpUpdate <==> filename == "ntp.json"
    ensures t == SensorUpdate <==> filename == "sensor.json"
    ensures t == AlarmStop <==> filename == "alarm.json"
    ensures t == Unknown <==> filename !in {"ntp.json", "sensor.json", "alarm.json"}
  {
    if filename in StateMap then StateMap[filename] else Unknown
  }

  predicate EndsWith(s: string, suffix: string)
  {
    |suffix| <= |s| && s[|s| - |suffix|..] == suffix
  }

  /**
   * os.path.basename: the part of the path after its last '/'.
   * The result is a suffix of the path without '/', and it is either the
   * whole path or preceded by a '/'.
   */
  function Basename(p: string): (b: string)
    ensures |b| <= |p| && p[|p| - |b|..] == b
    ensures '/' !in b
    ensures |b| < |p| ==> p[|p| - |b| - 1] == '/'
  {
    if p == [] || p[|p| - 1] == '/' then [] else Basename(p[..|p| - 1]) + [p[|p| - 1]]
  }

  /** A path without '/' is its own basename. */
  lemma {:induction false} BasenameOfPlain(name: string)
    requires '/' !in name
    ensures Basename(name) == name
  {
    if name != [] {
      var pre := name[..|name| - 1];
      assert '/' !in pre;
      BasenameOfPlain(pre);
    }
  }

  /** The basename of `dir/name` is `name`, whatever the directory. */
  lemma {:induction false} BasenameOfChild(dir: string, name: string)
    requires '/' !in name
    ensures Basename(dir + "/" + name) == name
  {
    if name != [] {
      var pre := name[..|name| - 1];
      assert '/' !in pre;
      assert dir + "/" + name == (dir + "/" + pre) + [name[|name| - 1]];
      BasenameOfChild(dir, pre);
    } else {
      assert dir + "/" + name == dir + "/";
    }
  }

  /** A path is its basename, or ends in '/' followed by it. */
  lemma BasenameSplits(p: string)
    ensures p == Basename(p) || EndsWith(p, "/" + Basename(p))
  {
    var b := Basename(p);
    if |b| < |p| {
      SplitAt(p, |p| - |b| - 1);
    } else {
      assert p[|p| - |b|..] == p;
    }
  }

  /** The basename is `name` exactly when the path is `name` or ends in "/" + name. */
  lemma BasenameIs(p: string, name: string)
    requires '/' !in name
    ensures Basename(p) == name <==> (p == name || EndsWith(p, "/" + name))
  {
    if Basename(p) == name {
      BasenameSplits(p);
    }
    if p == name {
      BasenameOfPlain(name);
    } else if EndsWith(p, "/" + name) {
      EndsWithSplit(p, "/" + name);
      Regroup(p[..|p| - |"/" + name|], name);
      BasenameOfChild(p[..|p| - |"/" + name|], name);
    }
  }

  lemma SplitAt(s: string, k: nat)
    requires k < |s|
    ensures s[k..] == [s[k]] + s[k + 1..]
  {
  }

  lemma EndsWithSplit(s: string, suffix: string)
    requires EndsWith(s, suffix)
    ensures s == s[..|s| - |suffix|] + suffix
  {
  }

  lemma Regroup(dir: string, name: string)
    ensures dir + ("/" + name) == dir + "/" + name
  {
  }

  /** The parent directory never affects the tag. */
  lemma ClassifyIgnoresDirectory(dir: string, name: string)
    requires '/' !in name
    ensures GetState(Basename(dir + "/" + name)) == GetState(name)
  {
    BasenameOfChild(dir, name);
  }

  /** A filesystem notification as seen by the handler. */
  datatype Event = Event(isDirectory: bool, srcPath: string)

  /** What opening and decoding the file gives: its payload, or the exception's text. */
  datatype Decoded<P> = Ok(payload: P) | Err(reason: string)

  /** How one call of on_modified ends. */
  datatype Outcome<P> =
    | Filtered                    // directory event or not a .json path
    | Debounced                   // inside the window of the previous admitted event
    | DecodeFailed(reason: string)
    | Classified(filename: string, state: Tag, data: P)

  const DefaultDebounceMs: int := 500

  predicate IsJsonFileEvent(e: Event)
  {
    !e.isDirectory && EndsWith(e.srcPath, ".json")
  }

  /** last_modified.get(path, 0) */
  function LastSeen(lastModified: map<string, int>, path: string): (t: int)
    ensures path in lastModified ==> t == lastModified[path]
    ensures path !in lastModified ==> t == 0
  {
    if path in lastModified then lastModified[path] else 0
  }

  /** The debounce test of on_modified: admitted unless `now - last < window`. */
  predicate Admits(lastModified: map<string, int>, path: string, now: int, window: int)
    ensures path !in lastModified ==> (Admits(lastModified, path, now, window) <==> now >= window)
  {
    now - LastSeen(lastModified, path) >= window
  }

  /** Decode-then-classify: a decode error ends handling, otherwise the basename is classified. */
  function Classify<P>(path: string, decoded: Decoded<P>): (o: Outcome<P>)
    ensures decoded.Err? ==> o == DecodeFailed(decoded.reason)
    ensures decoded.Ok? ==> o.Classified? && o.data == decoded.payload
    ensures o.Classified? ==> o.filename == Basename(path) && o.state == GetState(Basename(path))
  {
    match decoded
    case Err(reason) => DecodeFailed(reason)
    case Ok(payload) =>
      var filename := Basename(path);
      Classified(filename, GetState(filename), payload)
  }

  /** Two events for one path at `t` and `t + delta`: the second is admitted iff `delta >= window`. */
  lemma SecondEventAdmitted(lastModified: map<string, int>, path: string, t: int, delta: int, window: int)
    ensures Admits(lastModified[path := t], path, t + delta, window) <==> delta >= window
  {
  }

  /** Recording an admitted event never changes the gate for another path. */
  lemma OtherPathsUnaffected(lastModified: map<string, int>, path: string, other: string, t: int, now: int, window: int)
    requires other != path
    ensures Admits(lastModified[path := t], other, now, window) == Admits(lastModified, other, now, window)
  {
  }

  class JsonFileHandler {
    const tmpPath: string
    const debounceTime: int
    var lastModified: map<string, int>

    constructor (tmpPath: string, debounceTime: int := DefaultDebounceMs)
      ensures this.tmpPath == tmpPath && this.debounceTime == debounceTime
      ensures lastModified == map[]
    {
      this.tmpPath := tmpPath;
      this.debounceTime := debounceTime;
      lastModified := map[];
    }

    /**
     * on_modified for `event` at clock value `now`; `decoded` is what reading the
     * file would give if the handler gets that far. The timestamp is recorded
     * before the decode, so a failed decode still consumes the window.
     */
    method OnModified<P>(event: Event, now: int, decoded: Decoded<P>) returns (outcome: Outcome<P>)
      modifies this
      ensures !IsJsonFileEvent(event) ==> outcome == Filtered && lastModified == old(lastModified)
      ensures IsJsonFileEvent(event) && !Admits(old(lastModified), event.srcPath, now, debounceTime) ==>
                outcome == Debounced && lastModified == old(lastModified)
      ensures IsJsonFileEvent(event) && Admits(old(lastModified), event.srcPath, now, debounceTime) ==>
                outcome == Classify(event.srcPath, decoded) &&
                lastModified == old(lastModified)[event.srcPath := now]
    {
      if event.isDirectory || !EndsWith(event.srcPath, ".json") {
        return Filtered;
      }
      var last := if event.srcPath in lastModified then lastModified[event.srcPath] else 0;
      if now - last < debounceTime {
        return Debounced;
      }
      lastModified := lastModified[event.srcPath := now];
      match decoded {
        case Err(reason) =>
          return DecodeFailed(reason);
        case Ok(data) =>
          var filename := Basename(event.srcPath);
          var state := GetState(filename);
          return Classified(filename, state, data);
      }
    }
  }

  /**
   * Three writes of sensor.json at 1000, 1100 and 1600 ms with the default
   * window: the first is handled, the second falls inside the window, and
   * the third is admitted again but fails to decode.
   */
  method DebounceScenario(dir: string) returns (o1: Outcome<int>, o2: Outcome<int>, o3: Outcome<int>)
    ensures o1 == Classified("sensor.json", SensorUpdate, 215)
    ensures o2 == Debounced
    ensures o3 == DecodeFailed("Expecting value")
  {
    var h := new JsonFileHandler(dir);
    var path := dir + "/" + "sensor.json";
    var ev := Event(false, path);
    assert path[|path| - 5..] == ".json";
    assert IsJsonFileEvent(ev);
    BasenameOfChild(dir, "sensor.json");
    o1 := h.OnModified(ev, 1000, Ok(215));
    assert Admits(map[], path, 1000, 500);
    o2 := h.OnModified(ev, 1100, Ok(216));
    o3 := h.OnModified<int>(ev, 1600, Err("Expecting value"));
    assert h.lastModified[path] == 1600;
  }
}
