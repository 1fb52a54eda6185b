/**
 * The REST side of the web server: the content type of a static file, the
 * path the file is read from, and the handler that receives a colour
 * request for the on-board LED and dispatches it.
 */
module WebServer {
  import opened CLib
  import opened Events

  /** ESP_VFS_PATH_MAX of the ESP-IDF virtual file system. */
  const ESP_VFS_PATH_MAX: nat := 15
  const FILE_PATH_MAX: nat := ESP_VFS_PATH_MAX + 128
  const SCRATCH_BUFSIZE: nat := 4096

  // ---------------------------------------------------------------------
  // Content types

  function LowerStr(s: string): (r: string)
    ensures |r| == |s| && forall k :: 0 <= k < |s| ==> r[k] == ToLower(s[k])
  {
    seq(|s|, k requires 0 <= k < |s| => ToLower(s[k]))
  }

  /**
   * CHECK_FILE_EXTENSION(filename, ext): strcasecmp of the last strlen(ext)
   * characters with ext.  The macro indexes before the start of a name
   * shorter than the extension, so such a name is excluded.
   */
  predicate HasExtension(filename: string, ext: string)
    requires |ext| <= |filename|
  {
    LowerStr(filename[|filename| - |ext|..]) == LowerStr(ext)
  }

  /** set_content_type_from_file: the first extension that matches, in the order of the if-chain. */
  function ContentType(filepath: string): (r: string)
    requires |filepath| >= 5
    ensures r in {"text/html", "application/javascript", "text/css", "image/png", "image/x-icon", "text/xml", "text/plain"}
  {
    if HasExtension(filepath, ".html") then "text/html"
    else if HasExtension(filepath, ".js") then "application/javascript"
    else if HasExtension(filepath, ".css") then "text/css"
    else if HasExtension(filepath, ".png") then "image/png"
    else if HasExtension(filepath, ".ico") then "image/x-icon"
    else if HasExtension(filepath, ".svg") then "text/xml"
    else "text/plain"
  }

  /** The extension table, in priority order. */
  const MIME_TYPES: seq<(string, string)> := [
    (".html", "text/html"), (".js", "application/javascript"), (".css", "text/css"),
    (".png", "image/png"), (".ico", "image/x-icon"), (".svg", "text/xml")]

  /** Reference lookup: the type of the first table entry whose extension ends the name. */
  function FirstMatch(filepath: string, table: seq<(string, string)>): string
    requires forall k :: 0 <= k < |table| ==> |table[k].0| <= |filepath|
    decreases |table|
  {
    if table == [] then "text/plain"
    else if HasExtension(filepath, table[0].0) then table[0].1
    else FirstMatch(filepath, table[1..])
  }

  /** The if-chain is the first-match lookup in the table. */
  lemma ContentTypeIsTableLookup(filepath: string)
    requires |filepath| >= 5
    ensures ContentType(filepath) == FirstMatch(filepath, MIME_TYPES)
  {
    var t := MIME_TYPES;
    TableExtensions();
    assert FirstMatch(filepath, t[6..]) == "text/plain" by { assert t[6..] == []; }
    FirstMatchStep(filepath, t, 5);
    FirstMatchStep(filepath, t, 4);
    FirstMatchStep(filepath, t, 3);
    FirstMatchStep(filepath, t, 2);
    FirstMatchStep(filepath, t, 1);
    FirstMatchStep(filepath, t, 0);
    assert t[0..] == t;
  }

  lemma TableExtensions()
    ensures |MIME_TYPES| == 6
    ensures forall k :: 0 <= k < |MIME_TYPES| ==> |MIME_TYPES[k].0| <= 5
  {
    var t := MIME_TYPES;
    assert |t[0].0| == 5 && |t[1].0| == 3 && |t[2].0| == 4 && |t[3].0| == 4 && |t[4].0| == 4 && |t[5].0| == 4;
  }

  lemma FirstMatchStep(filepath: string, table: seq<(string, string)>, i: nat)
    requires i < |table|
    requires forall k :: 0 <= k < |table| ==> |table[k].0| <= |filepath|
    ensures FirstMatch(filepath, table[i..])
         == if HasExtension(filepath, table[i].0) then table[i].1 else FirstMatch(filepath, table[i + 1..])
  {
    assert table[i..][1..] == table[i + 1..];
  }

  lemma LowerTwice(s: string)
    ensures LowerStr(LowerStr(s)) == LowerStr(s)
  {
  }

  lemma LowerSuffix(s: string, k: nat)
    requires k <= |s|
    ensures LowerStr(s)[k..] == LowerStr(s[k..])
  {
  }

  lemma HasExtensionLower(filepath: string, ext: string)
    requires |ext| <= |filepath|
    ensures HasExtension(LowerStr(filepath), ext) == HasExtension(filepath, ext)
  {
    var k := |filepath| - |ext|;
    LowerSuffix(filepath, k);
    LowerTwice(filepath[k..]);
  }

  /** The extension test ignores case: a name and its lower-case form get the same type. */
  lemma ContentTypeIgnoresCase(filepath: string)
    requires |filepath| >= 5
    ensures ContentType(LowerStr(filepath)) == ContentType(filepath)
  {
    HasExtensionLower(filepath, ".html");
    HasExtensionLower(filepath, ".js");
    HasExtensionLower(filepath, ".css");
    HasExtensionLower(filepath, ".png");
    HasExtensionLower(filepath, ".ico");
    HasExtensionLower(filepath, ".svg");
  }

  /** Names ending in none of the six extensions are served as plain text. */
  lemma ContentTypeDefault(filepath: string)
    requires |filepath| >= 5
    requires forall k :: 0 <= k < |MIME_TYPES| ==> !HasExtension(filepath, MIME_TYPES[k].0)
    ensures ContentType(filepath) == "text/plain"
  {
    assert !HasExtension(filepath, MIME_TYPES[0].0);
    assert !HasExtension(filepath, MIME_TYPES[1].0);
    assert !HasExtension(filepath, MIME_TYPES[2].0);
    assert !HasExtension(filepath, MIME_TYPES[3].0);
    assert !HasExtension(filepath, MIME_TYPES[4].0);
    assert !HasExtension(filepath, MIME_TYPES[5].0);
  }

  // ---------------------------------------------------------------------
  // The static file path

  /** The part restCommonGetHandler appends: the index page for a directory, else the URI itself. */
  function PathTail(uri: string): (r: string)
    requires |uri| >= 1
    ensures r == uri || r == "/index.html"
    ensures |r| > 0 && r[|r| - 1] != '/'
  {
    if uri[|uri| - 1] == '/' then "/index.html" else uri
  }

  /** restCommonGetHandler: strlcpy of the base path, then strlcat of the tail, into FILE_PATH_MAX bytes. */
  method FilePath(basePath: string, uri: string) returns (filepath: string)
    requires |uri| >= 1
    ensures filepath == Fit(basePath + PathTail(uri), FILE_PATH_MAX)
    ensures |filepath| < FILE_PATH_MAX
    ensures |basePath| <= ESP_VFS_PATH_MAX && |uri| < FILE_PATH_MAX - ESP_VFS_PATH_MAX
            ==> filepath == basePath + PathTail(uri)
  {
    filepath := Fit(basePath, FILE_PATH_MAX);
    if uri[|uri| - 1] == '/' {
      filepath := Strlcat(filepath, "/index.html", FILE_PATH_MAX);
    } else {
      filepath := Strlcat(filepath, uri, FILE_PATH_MAX);
    }
    StrlcatFit(basePath, PathTail(uri), FILE_PATH_MAX);
  }

  // ---------------------------------------------------------------------
  // Receiving a request body

  /**
   * Whether a sequence of httpd_req_recv calls delivers `remaining` bytes.
   * Each entry is what the connection has ready at that call (a value of at
   * most zero is an error or a closed socket); a call never returns more
   * than the content still unread.
   */
  predicate Delivers(recv: seq<int>, remaining: nat)
    decreases |recv|
  {
    remaining == 0 || (recv != [] && recv[0] > 0 && Delivers(recv[1..], remaining - Min(recv[0], remaining)))
  }

  /** httpd_req_recv's copy of `bytes` into buf at offset. */
  method RecvInto(buf: array<char>, offset: nat, bytes: string)
    requires offset + |bytes| <= buf.Length
    modifies buf
    ensures buf[..offset] == old(buf[..offset])
    ensures buf[offset..offset + |bytes|] == bytes
    ensures buf[offset + |bytes|..] == old(buf[offset + |bytes|..])
  {
    var j := 0;
    while j < |bytes|
      invariant 0 <= j <= |bytes|
      invariant buf[..offset] == old(buf[..offset])
      invariant buf[offset..offset + j] == bytes[..j]
      invariant buf[offset + j..] == old(buf[offset + j..])
    {
      buf[offset + j] := bytes[j];
      assert buf[offset + j + 1..] == old(buf[offset + j + 1..]);
      j := j + 1;
    }
  }

  /** size_t is 32 bits wide on the ESP32: the largest Content-Length a request can carry. */
  const SIZE_MAX: nat := 0xFFFF_FFFF

  /**
   * `int total_len = req->content_len`: the 32-bit length read back as a
   * two's-complement int, so a length of 2^31 or more becomes negative.
   */
  function TotalLen(contentLen: nat): (t: int)
    requires contentLen <= SIZE_MAX
    ensures -0x8000_0000 <= t < 0x8000_0000
    ensures t == contentLen || t == contentLen - 0x1_0000_0000
    ensures t < 0 <==> contentLen >= 0x8000_0000
  {
    if contentLen < 0x8000_0000 then contentLen else contentLen - 0x1_0000_0000
  }

  /** The handler's length guard as written: it goes on when the signed total_len is below SCRATCH_BUFSIZE. */
  predicate AdmitsAsWritten(contentLen: nat)
    requires contentLen <= SIZE_MAX
  {
    !(TotalLen(contentLen) >= SCRATCH_BUFSIZE)
  }

  /**
   * A Content-Length from 2^31 on is far too long for the scratch buffer, yet
   * it passes the guard; the receive loop is then skipped and the terminator
   * is written at the negative index total_len, before the buffer.
   */
  lemma HugeLengthPassesGuard(contentLen: nat)
    requires 0x8000_0000 <= contentLen <= SIZE_MAX
    ensures contentLen >= SCRATCH_BUFSIZE && AdmitsAsWritten(contentLen)
    ensures TotalLen(contentLen) < 0
  {
  }

  /** Below 2^31 the guard as written is the unsigned comparison ReceiveBody makes. */
  lemma GuardsAgree(contentLen: nat)
    requires contentLen < 0x8000_0000
    ensures AdmitsAsWritten(contentLen) <==> contentLen < SCRATCH_BUFSIZE
  {
  }

  /**
   * The receive part of onboardLedSetPostHandler, with the length guard
   * comparing the unsigned Content-Length: a body of SCRATCH_BUFSIZE bytes or
   * more is refused before any read; otherwise it is read into the scratch
   * buffer until complete, and a failing read ends the request.  A complete
   * body is terminated at its length, inside the buffer.
   */
  method ReceiveBody(buf: array<char>, body: string, recv: seq<int>) returns (ok: bool)
    requires buf.Length == SCRATCH_BUFSIZE && |body| <= SIZE_MAX
    modifies buf
    ensures ok <==> |body| < SCRATCH_BUFSIZE && Delivers(recv, |body|)
    ensures |body| >= SCRATCH_BUFSIZE ==> buf[..] == old(buf[..])
    ensures ok ==> buf[..|body|] == body && buf[|body|] == '\0'
  {
    var total := |body|;
    if total >= SCRATCH_BUFSIZE {
      return false;
    }
    var cur := 0;
    var k := 0;
    while cur < total
      invariant 0 <= cur <= total && 0 <= k <= |recv|
      invariant buf[..cur] == body[..cur]
      invariant Delivers(recv, total) == Delivers(recv[k..], total - cur)
      decreases total - cur
    {
      var ready := if k < |recv| then recv[k] else 0;
      if ready <= 0 {
        assert recv[k..] == [] || recv[k..][0] <= 0;
        return false;
      }
      var received := Min(ready, total - cur);
      assert recv[k..][1..] == recv[k + 1..];
      RecvInto(buf, cur, body[cur..cur + received]);
      assert buf[..cur + received] == buf[..cur] + buf[cur..cur + received];
      assert body[..cur + received] == body[..cur] + body[cur..cur + received];
      cur := cur + received;
      k := k + 1;
    }
    buf[total] := '\0';
    assert buf[..total] == body[..total];
    return true;
  }

  // ---------------------------------------------------------------------
  // The LED colour request

  /** ONBOARDLED_EVENT_SETCOLOR of onboardled_event_t. */
  const ONBOARDLED_EVENT_SETCOLOR: int := 1
  /** sizeof(led_strip_collor_t): three ints. */
  const COLOR_SIZE: nat := 12

  datatype Color = Color(red: int, green: int, blue: int)

  /** The fields a parsed request body yields. */
  datatype LedRequest = LedRequest(kind: int, color: Color)

  /** Where a colour request goes. */
  datatype Route = EventLoop | Callbacks | DataQueue | Nowhere

  /** The switch on the request type. */
  function RouteOf(kind: int): (r: Route)
    ensures r == Nowhere <==> kind != 0 && kind != 1 && kind != 2
  {
    if kind == 0 then EventLoop else if kind == 1 then Callbacks else if kind == 2 then DataQueue else Nowhere
  }

  /** The outcome of the handler: refused, or replied to after routing the colour. */
  datatype Outcome = Refused | Replied(route: Route)

  /**
   * onboardLedSetPostHandler.  The JSON parse of the body is not modelled:
   * `request` is the type and colour it yields.  `ledBase` is the address
   * of ONBOARDLED_EVENT, `colorAddr` the address of the local colour and
   * `colorBytes` its bytes; `allocOk` says whether the queue's heap copy can
   * be allocated.  Posting to the default event loop is left out.
   */
  method OnboardLedSetPost(bus: EventBus, buf: array<char>, body: string, recv: seq<int>,
                           request: LedRequest, ledBase: nat, colorAddr: nat, colorBytes: seq<bv8>, allocOk: bool)
    returns (r: int, outcome: Outcome)
    requires bus.Valid() && buf.Length == SCRATCH_BUFSIZE && |body| <= SIZE_MAX
    requires |colorBytes| == COLOR_SIZE
    modifies buf, bus, bus.garbage
    ensures bus.Valid()
    ensures r == ESP_OK || r == ESP_FAIL
    ensures r == ESP_OK <==> |body| < SCRATCH_BUFSIZE && Delivers(recv, |body|)
    ensures r == ESP_OK ==> outcome == Replied(RouteOf(request.kind))
    ensures r == ESP_FAIL ==> outcome == Refused
    ensures outcome.Replied? && outcome.route == Callbacks
            ==> bus.calls == old(bus.calls) + Matching(bus.regs[..bus.count], ledBase, ONBOARDLED_EVENT_SETCOLOR, colorAddr)
    ensures outcome.Replied? && outcome.route == DataQueue
            ==> && bus.garbageCount == 0 && bus.live == HeapBlocks(bus.queue)
                && var queued := old(bus.initialised) && allocOk && |old(bus.queue)| < bus.queueSize;
                   && (queued ==> bus.queue == old(bus.queue) + [Item(ledBase, ONBOARDLED_EVENT_SETCOLOR, Heap(old(bus.nextBlock), colorBytes))])
                   && (!queued ==> bus.queue == old(bus.queue))
    ensures !(outcome.Replied? && outcome.route in {Callbacks, DataQueue})
            ==> bus.calls == old(bus.calls) && bus.queue == old(bus.queue) && bus.live == old(bus.live)
                && bus.garbageCount == old(bus.garbageCount)
  {
    var ok := ReceiveBody(buf, body, recv);
    if !ok {
      return ESP_FAIL, Refused;
    }
    var route := RouteOf(request.kind);
    if route == Callbacks {
      var _ := bus.Exec(ledBase, ONBOARDLED_EVENT_SETCOLOR, colorAddr);
    } else if route == DataQueue {
      assert colorBytes[..COLOR_SIZE] == colorBytes;
      var _ := bus.Post(ledBase, ONBOARDLED_EVENT_SETCOLOR, Some(colorBytes), COLOR_SIZE, allocOk);
    }
    return ESP_OK, Replied(route);
  }
}
