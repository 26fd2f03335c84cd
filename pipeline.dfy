/**
 * The producer and the server side by side: every file the producer loop
 * writes is seen by the server's handler as a `.json` file event, and its
 * basename classifies to the state the producer meant to signal.
 */
module Pipeline {
  import opened Common
  import Producer
  import Server

  /** The file name a post type is written under, and the state it stands for on the server. */
  function FileBase(t: Producer.PostType): string
  {
    match t
    case IdleType => ""
    case AlarmStopType => "alarm"
    case NtpType => "ntp"
    case SensorType => "sensor"
  }

  function Signalled(t: Producer.PostType): Server.Tag
  {
    match t
    case IdleType => Server.Unknown
    case AlarmStopType => Server.AlarmStop
    case NtpType => Server.NtpUpdate
    case SensorType => Server.SensorUpdate
  }

  /** The path write_json_to_file builds when nothing is cut off. */
  lemma WrittenPath(t: Producer.PostType, baseDir: string)
    requires t != Producer.IdleType
    requires CStr(baseDir) != []
    requires |CStr(baseDir) + "/" + FileBase(t) + ".json"| <= Producer.MaxJsonPathLength
    ensures Producer.WriteJsonPath(Some(t), Some(FileBase(t)), baseDir) == Some(CStr(baseDir) + "/" + (FileBase(t) + ".json"))
  {
    FileBasePlain(t);
    Regroup(CStr(baseDir), FileBase(t));
  }

  lemma FileBasePlain(t: Producer.PostType)
    ensures CStr(FileBase(t)) == FileBase(t)
  {
    assert NUL !in FileBase(t) by {
      match t
      case IdleType =>
      case AlarmStopType => assert NUL !in "alarm";
      case NtpType => assert NUL !in "ntp";
      case SensorType => assert NUL !in "sensor";
    }
    CStrOfPlain(FileBase(t));
  }

  lemma Regroup(dir: string, base: string)
    ensures dir + "/" + base + ".json" == dir + "/" + (base + ".json")
  {
  }

  /** A file named after a post type, in any directory, passes the filter and gets that type's state. */
  lemma ChildFileClassifies(dir: string, t: Producer.PostType)
    requires t != Producer.IdleType
    ensures Server.IsJsonFileEvent(Server.Event(false, dir + "/" + (FileBase(t) + ".json")))
    ensures Server.GetState(Server.Basename(dir + "/" + (FileBase(t) + ".json"))) == Signalled(t)
  {
    var name := FileBase(t) + ".json";
    var path := dir + "/" + name;
    assert path[|path| - 5..] == ".json";
    assert '/' !in name;
    Server.BasenameOfChild(dir, name);
    NameClassifies(t);
  }

  /**
   * A file the producer writes without truncation passes the handler's
   * `.json` filter and classifies to the state of the post type it was
   * written for.
   */
  lemma WrittenFileClassifies(t: Producer.PostType, baseDir: string)
    requires t != Producer.IdleType
    requires CStr(baseDir) != []
    requires |CStr(baseDir) + "/" + FileBase(t) + ".json"| <= Producer.MaxJsonPathLength
    ensures var path := Producer.WriteJsonPath(Some(t), Some(FileBase(t)), baseDir);
            path.Some? &&
            Server.IsJsonFileEvent(Server.Event(false, path.value)) &&
            Server.GetState(Server.Basename(path.value)) == Signalled(t)
  {
    WrittenPath(t, baseDir);
    ChildFileClassifies(CStr(baseDir), t);
  }

  lemma NameClassifies(t: Producer.PostType)
    requires t != Producer.IdleType
    ensures Server.GetState(FileBase(t) + ".json") == Signalled(t)
  {
    match t
    case AlarmStopType => assert FileBase(t) + ".json" == "alarm.json";
    case NtpType => assert FileBase(t) + ".json" == "ntp.json";
    case SensorType => assert FileBase(t) + ".json" == "sensor.json";
  }

  /** The alarm branch of the switch writes `alarm.json` into any short, plain directory, which the server reads as ALARM_STOP. */
  lemma AlarmFileIn(dir: string)
    requires dir != [] && NUL !in dir
    requires |dir| + 11 <= Producer.MaxJsonPathLength
    ensures Producer.Emit(Producer.AlarmStopType, 0, dir) == Some(dir + "/" + "alarm.json")
    ensures Server.GetState(Server.Basename(dir + "/" + "alarm.json")) == Server.AlarmStop
  {
    var t := Producer.AlarmStopType;
    var path := dir + "/" + "alarm.json";
    assert FileBase(t) == "alarm";
    assert FileBase(t) + ".json" == "alarm.json";
    assert Producer.WriteJsonPath(Some(t), Some(FileBase(t)), dir) == Some(path) by {
      CStrOfPlain(dir);
      WrittenPath(t, dir);
    }
    assert Server.GetState(Server.Basename(path)) == Server.AlarmStop by {
      ChildFileClassifies(dir, t);
    }
  }

  /** The directory `root/tmp` is one such directory. */
  lemma AlarmFileInTmp(root: string)
    requires root != [] && NUL !in root
    requires |root| + 15 <= Producer.MaxJsonPathLength
    ensures Producer.Emit(Producer.AlarmStopType, 0, root + "/tmp") == Some(root + "/tmp" + "/" + "alarm.json")
    ensures Server.GetState(Server.Basename(root + "/tmp" + "/" + "alarm.json")) == Server.AlarmStop
  {
    var dir := root + "/tmp";
    assert NUL !in dir by {
      assert NUL !in "/tmp";
    }
    assert |dir| == |root| + 4;
    AlarmFileIn(dir);
  }

  /**
   * The directory server.py watches (server/server.py:77-85): two `parent`
   * steps up from its own resolved path, then `tmp`. A resolved path is
   * absolute and has no trailing slash, and its `parent` is its dirname.
   */
  function WatchedDir(script: string): (r: string)
    ensures r == Producer.Dirname(Producer.Dirname(script)) + "/tmp"
    ensures |r| > 4 && r[|r| - 4..] == "/tmp"
  {
    Producer.Dirname(Producer.Dirname(script)) + "/tmp"
  }

  /** A server script at `root/c/s` watches `root/tmp`. */
  lemma WatchedDirOfLayout(root: string, c: string, script: string)
    requires root != [] && root[|root| - 1] != '/'
    requires c != [] && '/' !in c
    requires script != [] && '/' !in script
    ensures WatchedDir(root + "/" + c + "/" + script) == root + "/tmp"
  {
    var rc := root + "/" + c;
    assert rc[|rc| - 1] == c[|c| - 1];
    Producer.DirnameOfChild(rc, script);
    Producer.DirnameOfChild(root, c);
  }

  /** server/server.py itself, sitting at `root/c/server.py`. */
  lemma ServerScriptWatches(root: string, c: string)
    requires root != [] && root[|root| - 1] != '/'
    requires c != [] && '/' !in c
    ensures WatchedDir(root + "/" + c + "/server.py") == root + "/tmp"
  {
    var script := "server.py";
    assert forall k | 0 <= k < |script| :: script[k] != '/';
    assert root + "/" + c + "/server.py" == root + "/" + c + "/" + script;
    WatchedDirOfLayout(root, c, script);
  }

  /**
   * With the executable in `root/a/b/` and the server script in `root/c/`,
   * the alarm file lands in `root/tmp`, the directory the server watches,
   * and reaches it as ALARM_STOP.
   */
  lemma AlarmFileReachesServer(root: string, a: string, b: string, exe: string, c: string)
    requires root != [] && root[|root| - 1] != '/' && NUL !in root
    requires a != [] && '/' !in a && NUL !in a
    requires b != [] && '/' !in b && NUL !in b
    requires exe != [] && '/' !in exe && NUL !in exe
    requires |root| + |a| + |b| + |exe| + 3 < Producer.PathMax - 4
    requires |root| + 15 <= Producer.MaxJsonPathLength
    requires c != [] && '/' !in c
    ensures Producer.JsonBaseDir(Some(root + "/" + a + "/" + b + "/" + exe)) == Some(root + "/tmp")
    ensures WatchedDir(root + "/" + c + "/server.py") == root + "/tmp"
    ensures Producer.Emit(Producer.AlarmStopType, 0, root + "/tmp") == Some(root + "/tmp" + "/" + "alarm.json")
    ensures Server.GetState(Server.Basename(root + "/tmp" + "/" + "alarm.json")) == Server.AlarmStop
  {
    AlarmFileInTmp(root);
    Producer.BaseDirOfProjectLayout(root, a, b, exe);
    ServerScriptWatches(root, c);
  }
}
