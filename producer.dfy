/**
 * The producer loop of Core/main.c: the output directory derived from the
 * executable's path, the path `write_json_to_file` writes to, the UART line
 * framer over the fixed 64-byte buffers, and the per-iteration choice of the
 * file to emit.
 *
 * The serial port, the button ISR and the NTP timer thread become inputs:
 * the received byte (if any) is a parameter of one loop iteration, and the
 * two flags are fields that `PressButton` and `NtpTimerFires` set between
 * iterations. The float scan of the sensor line is a parameter returning the
 * number of items sscanf would convert.
 */
module Producer {
  import opened Common

  const PathMax: nat := 4096
  /** serialData and latestSerialData are both `char[64]`. */
  const SerialBufferSize: nat := 64
  /** A line keeps at most 63 characters, so the buffer always has room for the NUL. */
  const MaxLineLength: nat := SerialBufferSize - 1
  /** snprintf(filepath, sizeof(filepath) - 1, ...) keeps at most 4094 characters. */
  const MaxJsonPathLength: nat := PathMax - 2

  datatype PostType = IdleType | AlarmStopType | NtpType | SensorType

  // ---------------------------------------------------------------------------
  // JSON_BASE_DIR (lines 81-125)
  // ---------------------------------------------------------------------------

  function DropTrailingSlashes(p: string): (r: string)
    ensures r <= p
    ensures r == [] || r[|r| - 1] != '/'
    ensures forall k | |r| <= k < |p| :: p[k] == '/'
  {
    if p != [] && p[|p| - 1] == '/' then DropTrailingSlashes(p[..|p| - 1]) else p
  }

  function DropLastComponent(p: string): (r: string)
    ensures r <= p
    ensures r == [] || r[|r| - 1] == '/'
    ensures forall k | |r| <= k < |p| :: p[k] != '/'
  {
    if p != [] && p[|p| - 1] != '/' then DropLastComponent(p[..|p| - 1]) else p
  }

  /**
   * POSIX dirname(3): "." for a path without '/', "/" for a path made of
   * slashes or directly under the root, otherwise the path without its last
   * component and the slashes before it.
   */
  function Dirname(p: string): (d: string)
    ensures d != []
    ensures (forall k | 0 <= k < |p| :: p[k] != '/') ==> d == "."
    ensures d != "." && d != "/" ==> d < p && d[|d| - 1] != '/'
  {
    var q := DropTrailingSlashes(p);
    if q == [] then (if p == [] then "." else "/")
    else
      var r := DropLastComponent(q);
      if r == [] then "."
      else
        var s := DropTrailingSlashes(r);
        if s == [] then "/" else s
  }

  /** dirname strips exactly one component from `d/n`. */
  lemma DirnameOfChild(d: string, n: string)
    requires d != [] && d[|d| - 1] != '/'
    requires n != [] && '/' !in n
    ensures Dirname(d + "/" + n) == d
  {
    var p := d + "/" + n;
    assert p[|p| - 1] == n[|n| - 1];
    var q := DropTrailingSlashes(p);
    assert q == p;
    var r := DropLastComponent(q);
    assert forall k | |d| < k < |p| :: p[k] == n[k - |d| - 1];
    assert p[|d|] == '/';
    assert |r| == |d| + 1 by {
      assert |r| > |d|;
      assert r[|r| - 1] == p[|r| - 1];
    }
    assert r == d + "/" by {
      assert r == p[..|d| + 1];
    }
    var s := DropTrailingSlashes(r);
    assert r[|d|] == '/' && r[|d| - 1] == d[|d| - 1];
    assert |s| == |d|;
    assert s == r[..|d|];
  }

  /** The executable's path as main() holds it: readlink keeps at most 4095 bytes. */
  function ExePath(link: string): (e: string)
    ensures e <= link && |e| <= PathMax - 1
    ensures |link| <= PathMax - 1 ==> e == link
    ensures |link| >= PathMax - 1 ==> |e| == PathMax - 1
  {
    link[..Min(|link|, PathMax - 1)]
  }

  /**
   * JSON_BASE_DIR: dirname three times, then "/tmp". `None` is main()
   * returning 1, either because readlink failed or because the result would
   * not fit in the 4096-byte buffer.
   */
  function JsonBaseDir(link: Option<string>): (r: Option<string>)
    ensures link.None? ==> r.None?
    ensures r.Some? ==> |r.value| < PathMax
    ensures link.Some? && |Dirname(Dirname(Dirname(CStr(ExePath(link.value))))) + "/tmp"| < PathMax ==> r.Some?
    ensures r.Some? ==> r.value == Dirname(Dirname(Dirname(CStr(ExePath(link.value))))) + "/tmp"
  {
    match link
    case None => None
    case Some(l) =>
      var dir3 := Dirname(Dirname(Dirname(CStr(ExePath(l)))));
      var baseDir := dir3 + "/tmp";
      if |baseDir| >= PathMax then None else Some(baseDir)
  }

  /**
   * An executable at `root/a/b/exe` writes into `root/tmp`, the directory
   * a server script at `root/<dir>/` watches.
   */
  lemma {:induction false} BaseDirOfProjectLayout(root: string, a: string, b: string, exe: string)
    requires root != [] && root[|root| - 1] != '/' && NUL !in root
    requires a != [] && '/' !in a && NUL !in a
    requires b != [] && '/' !in b && NUL !in b
    requires exe != [] && '/' !in exe && NUL !in exe
    requires |root| + |a| + |b| + |exe| + 3 < PathMax - 4
    ensures JsonBaseDir(Some(root + "/" + a + "/" + b + "/" + exe)) == Some(root + "/tmp")
  {
    var link := root + "/" + a + "/" + b + "/" + exe;
    assert ExePath(link) == link;
    CStrOfPlain(link);
    ThreeDirnames(root, a, b, exe);
  }

  lemma ThreeDirnames(root: string, a: string, b: string, exe: string)
    requires root != [] && root[|root| - 1] != '/'
    requires a != [] && '/' !in a
    requires b != [] && '/' !in b
    requires exe != [] && '/' !in exe
    ensures Dirname(Dirname(Dirname(root + "/" + a + "/" + b + "/" + exe))) == root
  {
    var ra := root + "/" + a;
    var rab := ra + "/" + b;
    assert rab[|rab| - 1] == b[|b| - 1];
    DirnameOfChild(rab, exe);
    assert ra[|ra| - 1] == a[|a| - 1];
    DirnameOfChild(ra, b);
    DirnameOfChild(root, a);
  }

  // ---------------------------------------------------------------------------
  // write_json_to_file (lines 39-47): the path only
  // ---------------------------------------------------------------------------

  /**
   * The file write_json_to_file opens, or `None` when it returns at once: a
   * NULL argument or an empty JSON_BASE_DIR. The path is "<dir>/<base>.json"
   * cut to 4094 characters. The document itself is only checked for NULL.
   */
  function WriteJsonPath<J>(jsonString: Option<J>, filenameBase: Option<string>, baseDir: string): (r: Option<string>)
    ensures r.Some? <==> jsonString.Some? && filenameBase.Some? && CStr(baseDir) != []
    ensures r.Some? ==> |r.value| <= MaxJsonPathLength
    ensures r.Some? ==> r.value <= CStr(baseDir) + "/" + CStr(filenameBase.value) + ".json"
    ensures r.Some? && |CStr(baseDir) + "/" + CStr(filenameBase.value) + ".json"| <= MaxJsonPathLength ==>
              r.value == CStr(baseDir) + "/" + CStr(filenameBase.value) + ".json"
    ensures r.Some? && |CStr(baseDir) + "/" + CStr(filenameBase.value) + ".json"| > MaxJsonPathLength ==>
              |r.value| == MaxJsonPathLength
  {
    if jsonString.None? || filenameBase.None? || CStr(baseDir) == [] then None
    else
      var full := CStr(baseDir) + "/" + CStr(filenameBase.value) + ".json";
      Some(full[..Min(|full|, MaxJsonPathLength)])
  }

  // ---------------------------------------------------------------------------
  // The UART line framer (lines 187-211), as a function of the byte stream
  // ---------------------------------------------------------------------------

  /** The partial line (`serialData[..dataIndex]`) and the last completed line. */
  datatype Framer = Framer(pending: seq<char>, latest: seq<char>)

  const InitialFramer: Framer := Framer([], [])

  predicate IsLineEnd(b: char)
  {
    b == '\n' || b == '\r'
  }

  /** One received byte; the flag says whether a non-empty line was completed. */
  function Feed(f: Framer, b: char): (r: (Framer, bool))
    ensures r.1 <==> IsLineEnd(b) && f.pending != []
    ensures r.0.latest == if r.1 then f.pending else f.latest
  {
    if IsLineEnd(b) then
      if |f.pending| > 0 then (Framer([], f.pending), true) else (Framer([], f.latest), false)
    else if |f.pending| < MaxLineLength then (Framer(f.pending + [b], f.latest), false)
    else (Framer([], f.latest), false)
  }

  /** One loop iteration's serial read: no byte available, or one byte. */
  function Receive(f: Framer, received: Option<char>): (r: (Framer, bool))
    ensures received.None? ==> r == (f, false)
  {
    match received
    case None => (f, false)
    case Some(b) => Feed(f, b)
  }

  /** The framer after a whole byte stream, starting from main()'s empty buffers. */
  function FeedAll(bytes: seq<char>): (f: Framer)
    ensures |f.pending| <= MaxLineLength && |f.latest| <= MaxLineLength
    ensures |f.pending| <= |bytes|
  {
    if bytes == [] then InitialFramer else Feed(FeedAll(bytes[..|bytes| - 1]), bytes[|bytes| - 1]).0
  }

  /** How many bytes follow the last line terminator. */
  function RunLength(bytes: seq<char>): (n: nat)
    ensures n <= |bytes|
  {
    if bytes == [] || IsLineEnd(bytes[|bytes| - 1]) then 0 else RunLength(bytes[..|bytes| - 1]) + 1
  }

  /**
   * The partial line, stated without the framer: the tail of the run of
   * non-terminators since the last terminator, restarted after every 64th
   * character (the 64th character of a run clears the buffer and is itself
   * dropped).
   */
  function ExpectedPending(bytes: seq<char>): (r: seq<char>)
    ensures |r| <= MaxLineLength
  {
    var m := RunLength(bytes) % 64;
    bytes[|bytes| - m..]
  }

  /** A terminator at position k completes a non-empty line. */
  predicate CompletesLine(bytes: seq<char>, k: int)
  {
    0 <= k < |bytes| && IsLineEnd(bytes[k]) && ExpectedPending(bytes[..k]) != []
  }

  /** The most recent non-empty completed line, stated without the framer. */
  function LastCompletedLine(bytes: seq<char>): seq<char>
  {
    if bytes == [] then []
    else if CompletesLine(bytes, |bytes| - 1) then ExpectedPending(bytes[..|bytes| - 1])
    else LastCompletedLine(bytes[..|bytes| - 1])
  }

  lemma {:induction false} PendingIsExpected(bytes: seq<char>)
    ensures FeedAll(bytes).pending == ExpectedPending(bytes)
  {
    if bytes != [] {
      var pre, b := bytes[..|bytes| - 1], bytes[|bytes| - 1];
      assert bytes == pre + [b];
      PendingIsExpected(pre);
      PendingStep(pre, b, FeedAll(pre));
    }
  }

  lemma PendingStep(pre: seq<char>, b: char, f: Framer)
    requires f.pending == ExpectedPending(pre)
    ensures Feed(f, b).0.pending == ExpectedPending(pre + [b])
  {
    var bytes := pre + [b];
    RunLengthSnoc(pre, b);
    var n := RunLength(pre);
    var m := n % 64;
    assert |f.pending| == m;
    if IsLineEnd(b) {
      assert ExpectedPending(bytes) == [];
    } else {
      RunStep(n);
      if m < MaxLineLength {
        TailSnoc(pre, b, m);
        assert ExpectedPending(bytes) == f.pending + [b];
      } else {
        assert ExpectedPending(bytes) == [];
      }
    }
  }

  lemma RunLengthSnoc(pre: seq<char>, b: char)
    ensures RunLength(pre + [b]) == if IsLineEnd(b) then 0 else RunLength(pre) + 1
  {
    var bytes := pre + [b];
    assert bytes[..|bytes| - 1] == pre;
  }

  /** A run one longer stays in its block of 64, or starts the next one. */
  lemma RunStep(n: nat)
    ensures n % 64 < MaxLineLength ==> (n + 1) % 64 == n % 64 + 1
    ensures n % 64 == MaxLineLength ==> (n + 1) % 64 == 0
  {
  }

  lemma TailSnoc(pre: seq<char>, b: char, m: nat)
    requires m <= |pre|
    ensures (pre + [b])[|pre| + 1 - (m + 1)..] == pre[|pre| - m..] + [b]
  {
  }

  /** The framer's last line is the most recent non-empty completed line, and both buffers stay within 63 characters. */
  lemma {:induction false} LatestIsLastCompletedLine(bytes: seq<char>)
    ensures FeedAll(bytes).latest == LastCompletedLine(bytes)
    ensures |FeedAll(bytes).pending| <= MaxLineLength && |FeedAll(bytes).latest| <= MaxLineLength
  {
    PendingIsExpected(bytes);
    if bytes != [] {
      var pre := bytes[..|bytes| - 1];
      assert bytes[..|bytes| - 1] == pre;
      LatestIsLastCompletedLine(pre);
      PendingIsExpected(pre);
    }
  }

  // ---------------------------------------------------------------------------
  // The file chosen in one iteration (lines 181-198, 213-287)
  // ---------------------------------------------------------------------------

  /**
   * json_post_type at the switch: the value left by the timer thread, then
   * the button, then a completed line; the last assignment wins.
   */
  function Select(atStart: PostType, buttonPressed: bool, lineDone: bool): (r: PostType)
    ensures r == SensorType <==> lineDone || (!buttonPressed && atStart == SensorType)
    ensures r == AlarmStopType <==> !lineDone && (buttonPressed || atStart == AlarmStopType)
    ensures r == atStart || r == SensorType || r == AlarmStopType
  {
    if lineDone then SensorType else if buttonPressed then AlarmStopType else atStart
  }

  /**
   * The file the switch writes, if any. The printed cJSON document is
   * represented by the post type it was built for; `sensorItems` is what
   * sscanf(latestSerialData, "|%f|%f|%d|", ...) returns.
   */
  function Emit(t: PostType, sensorItems: int, baseDir: string): (r: Option<string>)
    ensures t == IdleType ==> r == None
    ensures t == SensorType && sensorItems != 3 ==> r == None
    ensures t == AlarmStopType ==> r == WriteJsonPath(Some(t), Some("alarm"), baseDir)
    ensures t == NtpType ==> r == WriteJsonPath(Some(t), Some("ntp"), baseDir)
    ensures t == SensorType && sensorItems == 3 ==> r == WriteJsonPath(Some(t), Some("sensor"), baseDir)
  {
    match t
    case IdleType => None
    case AlarmStopType => WriteJsonPath(Some(t), Some("alarm"), baseDir)
    case NtpType => WriteJsonPath(Some(t), Some("ntp"), baseDir)
    case SensorType => if sensorItems == 3 then WriteJsonPath(Some(t), Some("sensor"), baseDir) else None
  }

  /**
   * Within one iteration a completed line overrides a button press, the press
   * overrides a pending NTP file, and with neither the timer's value stands.
   */
  lemma SelectPriority(atStart: PostType, buttonPressed: bool, lineDone: bool)
    ensures lineDone ==> Select(atStart, buttonPressed, lineDone) == SensorType
    ensures !lineDone && buttonPressed ==> Select(atStart, buttonPressed, lineDone) == AlarmStopType
    ensures !lineDone && !buttonPressed ==> Select(atStart, buttonPressed, lineDone) == atStart
  {
  }

  /**
   * As written, the loop reads `button_press` (line 34), a flag no file
   * shown here defines or sets: the button ISR sets `button_flag`
   * (Core/Modules/btn_handler.c:9-13). With the flag never set, no iteration
   * ever selects the alarm file.
   */
  lemma NoAlarmWithoutPress(atStart: PostType, lineDone: bool)
    requires atStart != AlarmStopType
    ensures Select(atStart, false, lineDone) != AlarmStopType
    ensures Select(atStart, true, lineDone) == AlarmStopType <==> !lineDone
  {
  }

  // ---------------------------------------------------------------------------
  // The loop state, over the real buffers
  // ---------------------------------------------------------------------------

  /** memset(a, 0, sizeof a) */
  method ClearBuffer(a: array<char>)
    modifies a
    ensures forall k | 0 <= k < a.Length :: a[k] == NUL
  {
    forall k | 0 <= k < a.Length {
      a[k] := NUL;
    }
  }

  /** strncpy(dst, src, n): copy up to the first NUL of src's first n bytes, then pad with NULs. */
  method StrNCpy(dst: array<char>, src: array<char>, n: nat)
    requires n <= dst.Length && n <= src.Length && dst != src
    modifies dst
    ensures dst[..n] == Padded(CStr(src[..n]), n)
    ensures dst[n..] == old(dst[n..])
  {
    var i := 0;
    while i < n && src[i] != NUL
      invariant 0 <= i <= n
      invariant dst[..i] == src[..i]
      invariant NUL !in src[..i]
      invariant dst[n..] == old(dst[n..])
    {
      dst[i] := src[i];
      i := i + 1;
      assert src[..i] == src[..i - 1] + [src[i - 1]];
    }
    ghost var copied := i;
    assert src[..n][..i] == src[..i];
    CStrStopsAt(src[..n], i);
    while i < n
      invariant copied <= i <= n
      invariant dst[..copied] == src[..copied]
      invariant forall k | copied <= k < i :: dst[k] == NUL
      invariant dst[n..] == old(dst[n..])
    {
      dst[i] := NUL;
      i := i + 1;
    }
    PaddedFrom(dst[..n], src[..copied]);
  }

  lemma PaddedFrom(d: seq<char>, s: seq<char>)
    requires |s| <= |d| && d[..|s|] == s
    requires forall k | |s| <= k < |d| :: d[k] == NUL
    ensures d == Padded(s, |d|)
  {
  }

  class Producer {
    const jsonBaseDir: string
    var serialData: array<char>
    var dataIndex: int
    var latestSerialData: array<char>
    var jsonPostType: PostType
    var buttonPress: bool
    /** The abstract framer state the two buffers hold. */
    ghost var framer: Framer

    ghost predicate Valid()
      reads this, serialData, latestSerialData
    {
      && serialData.Length == SerialBufferSize
      && latestSerialData.Length == SerialBufferSize
      && serialData != latestSerialData
      && 0 <= dataIndex <= MaxLineLength
      && serialData[..dataIndex] == framer.pending
      && |framer.latest| <= MaxLineLength
      && latestSerialData[..] == Padded(CStr(framer.latest), SerialBufferSize)
    }

    /**
     * The state main() reaches before its loop: buffers empty, and the first
     * NTP sync succeeded, so an NTP file is due.
     */
    constructor (jsonBaseDir: string)
      ensures Valid() && fresh(serialData) && fresh(latestSerialData)
      ensures this.jsonBaseDir == jsonBaseDir
      ensures dataIndex == 0 && framer == InitialFramer
      ensures jsonPostType == NtpType && !buttonPress
    {
      this.jsonBaseDir := jsonBaseDir;
      serialData := new char[SerialBufferSize];
      dataIndex := 0;
      latestSerialData := new char[SerialBufferSize](_ => NUL);
      jsonPostType := NtpType;
      buttonPress := false;
      framer := InitialFramer;
      new;
      assert latestSerialData[..] == Padded([], SerialBufferSize);
    }

    /**
     * Another context setting `button_press` between two iterations (line 34
     * declares it `extern` and the loop clears it at lines 181-183).
     */
    method PressButton()
      modifies this`buttonPress
      ensures buttonPress
    {
      buttonPress := true;
    }

    /** ntp_timer_thread after its 300-second sleep. */
    method NtpTimerFires()
      modifies this`jsonPostType
      ensures jsonPostType == NtpType
    {
      jsonPostType := NtpType;
    }

    /** Lines 190-210: one byte from the UART. */
    method FeedByte(b: char) returns (lineDone: bool)
      requires Valid()
      modifies this`dataIndex, this`framer, this`jsonPostType, serialData, latestSerialData
      ensures Valid()
      ensures (framer, lineDone) == Feed(old(framer), b)
      ensures jsonPostType == if lineDone then SensorType else old(jsonPostType)
      ensures IsLineEnd(b) || old(dataIndex) == MaxLineLength ==>
                forall k | 0 <= k < SerialBufferSize :: serialData[k] == NUL
    {
      if b == '\n' || b == '\r' {
        serialData[dataIndex] := NUL;
        lineDone := dataIndex > 0;
        if lineDone {
          ghost var line := framer.pending;
          RecordLine(line);
          framer := Framer([], line);
        } else {
          framer := Framer([], framer.latest);
        }
        ResetBuffer();
      } else if dataIndex < SerialBufferSize - 1 {
        serialData[dataIndex] := b;
        assert serialData[..dataIndex + 1] == framer.pending + [b];
        dataIndex := dataIndex + 1;
        framer := Framer(framer.pending + [b], framer.latest);
        lineDone := false;
      } else {
        ResetBuffer();
        framer := Framer([], framer.latest);
        lineDone := false;
      }
    }

    /** Lines 195-197: keep the completed line and ask for a sensor file. */
    method RecordLine(ghost line: seq<char>)
      requires serialData.Length == SerialBufferSize && latestSerialData.Length == SerialBufferSize
      requires serialData != latestSerialData
      requires 0 <= dataIndex <= MaxLineLength && serialData[..dataIndex] == line && serialData[dataIndex] == NUL
      modifies latestSerialData, this`jsonPostType
      ensures latestSerialData[..] == Padded(CStr(line), SerialBufferSize)
      ensures jsonPostType == SensorType
    {
      StrNCpy(latestSerialData, serialData, SerialBufferSize - 1);
      latestSerialData[SerialBufferSize - 1] := NUL;
      jsonPostType := SensorType;
      CopiedLineIsPadded(latestSerialData[..], serialData[..], line);
    }

    /** Lines 200-201 and 207-208: start a new line in a cleared buffer. */
    method ResetBuffer()
      requires serialData.Length == SerialBufferSize
      modifies this`dataIndex, serialData
      ensures dataIndex == 0 && forall k | 0 <= k < SerialBufferSize :: serialData[k] == NUL
    {
      dataIndex := 0;
      ClearBuffer(serialData);
    }

    /**
     * One pass of the while(1) loop: read the button flag, take at most one
     * byte, write at most one file, and reset json_post_type.
     */
    method Iterate(received: Option<char>, sensorScan: string -> int) returns (written: Option<string>)
      requires Valid()
      modifies this`dataIndex, this`framer, this`jsonPostType, this`buttonPress, serialData, latestSerialData
      ensures Valid()
      ensures jsonPostType == IdleType && !buttonPress
      ensures framer == Receive(old(framer), received).0
      ensures written == Emit(Select(old(jsonPostType), old(buttonPress), Receive(old(framer), received).1),
                              sensorScan(CStr(framer.latest)), jsonBaseDir)
    {
      if buttonPress {
        buttonPress := false;
        jsonPostType := AlarmStopType;
      }
      ghost var lineDone := false;
      if received.Some? {
        lineDone := FeedByte(received.value);
      }
      var t := jsonPostType;
      match t {
        case AlarmStopType =>
          written := WriteJsonPath(Some(t), Some("alarm"), jsonBaseDir);
        case NtpType =>
          written := WriteJsonPath(Some(t), Some("ntp"), jsonBaseDir);
        case SensorType =>
          var text := CStr(latestSerialData[..]);
          LatestText(framer.latest);
          if sensorScan(text) == 3 {
            written := WriteJsonPath(Some(t), Some("sensor"), jsonBaseDir);
          } else {
            written := None;
          }
        case IdleType =>
          written := None;
      }
      jsonPostType := IdleType;
    }
  }

  /** What strncpy copies out of serialData once its NUL is placed: the line up to its first NUL. */
  lemma LineCopied(buf: seq<char>, line: seq<char>)
    requires |line| <= |buf| && buf[..|line|] == line
    requires |line| < |buf| ==> buf[|line|] == NUL
    ensures CStr(buf) == CStr(line)
  {
    assert buf == line + buf[|line|..];
    CStrAppend(line, buf[|line|..]);
    if NUL !in line {
      CStrOfPlain(line);
    }
  }

  /** strncpy of 63 bytes plus the forced final NUL leaves the line, NUL-padded, in the 64-byte buffer. */
  lemma CopiedLineIsPadded(dst: seq<char>, src: seq<char>, line: seq<char>)
    requires |dst| == SerialBufferSize && |src| == SerialBufferSize && |line| <= MaxLineLength
    requires src[..|line|] == line && src[|line|] == NUL
    requires dst[..MaxLineLength] == Padded(CStr(src[..MaxLineLength]), MaxLineLength)
    requires dst[MaxLineLength] == NUL
    ensures dst == Padded(CStr(line), SerialBufferSize)
  {
    BufferedLine(src, line);
    LastNul(dst, Padded(CStr(line), MaxLineLength));
    PaddedSnoc(CStr(line), MaxLineLength);
  }

  /** The first 63 bytes of the serial buffer hold the line up to its first NUL. */
  lemma BufferedLine(src: seq<char>, line: seq<char>)
    requires |src| == SerialBufferSize && |line| <= MaxLineLength
    requires src[..|line|] == line && src[|line|] == NUL
    ensures CStr(src[..MaxLineLength]) == CStr(line)
  {
    var buf := src[..MaxLineLength];
    assert buf[..|line|] == line;
    assert |line| < |buf| ==> buf[|line|] == NUL;
    LineCopied(buf, line);
  }

  lemma LastNul(dst: seq<char>, head: seq<char>)
    requires |dst| == |head| + 1 && dst[..|head|] == head && dst[|head|] == NUL
    ensures dst == head + [NUL]
  {
    assert dst == dst[..|head|] + [dst[|head|]];
  }

  /** sscanf sees the recorded line up to its first NUL. */
  lemma LatestText(latest: seq<char>)
    requires |latest| <= MaxLineLength
    ensures CStr(Padded(CStr(latest), SerialBufferSize)) == CStr(latest)
  {
    var c := CStr(latest);
    var p := Padded(c, SerialBufferSize);
    assert p == c + p[|c|..];
    CStrAppend(c, p[|c|..]);
    CStrOfPlain(c);
  }
}
