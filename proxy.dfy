/** The development proxy: it forwards browser requests to the application and splices a
    live-reload script into HTML responses right after the first exact `<head>` tag, and it
    relays restart notifications to the browser over server-sent events. The HTTP and SSE
    libraries are abstracted: a response is a value with a content type and a body, and the
    events published are recorded. */
module Proxy {
  import opened Wrappers
  import opened Strings
  import opened Notification
  import opened Configuration

  newtype byte = x: int | 0 <= x < 256

  /** The bytes of a string of 8-bit characters. */
  function Ascii(s: string): (b: seq<byte>)
    requires forall i :: 0 <= i < |s| ==> s[i] as int < 256
    ensures |b| == |s| && forall i :: 0 <= i < |s| ==> b[i] as int == s[i] as int
  {
    if s == [] then [] else [s[0] as int as byte] + Ascii(s[1..])
  }

  /** The script that reloads the page when the proxy publishes an event. */
  const InjectCode: string := "\n<script>\n\tconst source = new EventSource('/__gomon__/events?stream=hmr');\n\tsource.onmessage = function (event) {\n\t\tconsole.log('reloading...', event);\n\t\tsource.close();\n\t\twindow.location.reload();\n\t};\n</script>"

  /** The bytes `<head>`. */
  const HeadTag: seq<byte> := [60, 104, 101, 97, 100, 62]

  lemma HeadTagIsAscii()
    ensures HeadTag == Ascii("<head>")
  {
  }

  // ---- the HTML injection ----

  /** The body holds the exact bytes `<head>` at position i. */
  predicate IsHeadAt(body: seq<byte>, i: int) {
    0 <= i && i + |HeadTag| <= |body| && body[i..i + |HeadTag|] == HeadTag
  }

  /** The position of the first exact `<head>`, if any. */
  function FindHead(body: seq<byte>): (r: Option<nat>)
    ensures r.Some? ==> IsHeadAt(body, r.value) && forall j :: 0 <= j < r.value ==> !IsHeadAt(body, j)
    ensures r.None? ==> forall j :: 0 <= j < |body| ==> !IsHeadAt(body, j)
    decreases |body|
  {
    if |body| < |HeadTag| then None
    else if body[..|HeadTag|] == HeadTag then Some(0)
    else
      var rest := FindHead(body[1..]);
      assert forall j :: 1 <= j < |body| ==> (IsHeadAt(body, j) <==> IsHeadAt(body[1..], j - 1)) by {
        forall j | 1 <= j < |body| ensures IsHeadAt(body, j) <==> IsHeadAt(body[1..], j - 1) {
          HeadAtShift(body, j);
        }
      }
      match rest
      case None => None
      case Some(k) => Some(k + 1)
  }

  /** A head at j is a head at j - 1 of the body without its first byte. */
  lemma HeadAtShift(body: seq<byte>, j: int)
    requires 1 <= j < |body|
    ensures IsHeadAt(body, j) <==> IsHeadAt(body[1..], j - 1)
  {
    if j + |HeadTag| <= |body| {
      assert body[j..j + |HeadTag|] == body[1..][j - 1..j - 1 + |HeadTag|];
    }
  }

  /** The body the proxy sends on: the input through the first `<head>`, the code, then the
      remainder; the input unchanged when there is no exact `<head>`. */
  function Injected(body: seq<byte>, code: seq<byte>): seq<byte> {
    match FindHead(body)
    case Some(i) => body[..i + |HeadTag|] + code + body[i + |HeadTag|..]
    case None => body
  }

  /** The scan of proxyRequest: an index runs over the body; at each `<` the following bytes
      are compared with `<head>`, and on the first full match the output is the body through
      the tag, the code and the rest of the body. Without a match the body is copied. */
  method InjectAfterHead(inBuf: seq<byte>, code: seq<byte>) returns (outBuf: seq<byte>, matched: bool)
    ensures matched <==> FindHead(inBuf).Some?
    ensures outBuf == Injected(inBuf, code)
  {
    var ix := 0;
    matched := false;
    outBuf := [];
    while ix < |inBuf|
      invariant 0 <= ix <= |inBuf|
      invariant !matched && outBuf == []
      invariant forall j :: 0 <= j < ix ==> !IsHeadAt(inBuf, j)
    {
      if inBuf[ix] == 60 {
        matched := MatchesHeadAt(inBuf, ix);
        if matched {
          outBuf := SpliceAt(inBuf, code, ix, outBuf);
          return;
        }
      } else {
        HeadAtBytes(inBuf, ix);
      }
      ix := ix + 1;
    }
    outBuf := outBuf + inBuf;
    assert FindHead(inBuf).Some? ==> IsHeadAt(inBuf, FindHead(inBuf).value);
  }

  /** The output of a match at ix: the body through the tag, the code, then the rest. */
  method SpliceAt(inBuf: seq<byte>, code: seq<byte>, ix: nat, outBuf: seq<byte>) returns (outBuf': seq<byte>)
    requires outBuf == [] && IsHeadAt(inBuf, ix)
    requires forall j :: 0 <= j < ix ==> !IsHeadAt(inBuf, j)
    ensures FindHead(inBuf) == Some(ix) && outBuf' == Injected(inBuf, code)
  {
    var cutPos := ix + |HeadTag|;
    outBuf' := outBuf + inBuf[..cutPos];
    outBuf' := outBuf' + code;
    outBuf' := outBuf' + inBuf[cutPos..];
    FirstHeadUnique(inBuf, ix);
    assert [] + inBuf[..cutPos] == inBuf[..cutPos];
  }

  /** The inner comparison of the scan: the bytes from ix on are compared with `<head>`
      one by one, stopping at the first difference or at the end of the body. */
  method MatchesHeadAt(inBuf: seq<byte>, ix: nat) returns (matched: bool)
    requires ix < |inBuf|
    ensures matched <==> IsHeadAt(inBuf, ix)
  {
    matched := true;
    var jx := 0;
    while jx < |HeadTag|
      invariant 0 <= jx <= |HeadTag|
      invariant matched ==> ix + jx <= |inBuf| && inBuf[ix..ix + jx] == HeadTag[..jx]
      invariant !matched ==> !IsHeadAt(inBuf, ix)
    {
      if ix + jx >= |inBuf| || inBuf[ix + jx] != HeadTag[jx] {
        matched := false;
        HeadAtBytes(inBuf, ix);
        break;
      }
      assert inBuf[ix..ix + jx + 1] == inBuf[ix..ix + jx] + [inBuf[ix + jx]];
      jx := jx + 1;
    }
  }

  /** A tag at i consists of the bytes of `<head>` from i on. */
  lemma HeadAtBytes(body: seq<byte>, i: int)
    ensures IsHeadAt(body, i) ==> forall k :: 0 <= k < |HeadTag| ==> body[i + k] == HeadTag[k]
  {
    if IsHeadAt(body, i) {
      forall k | 0 <= k < |HeadTag| ensures body[i + k] == HeadTag[k] {
        assert body[i..i + |HeadTag|][k] == body[i + k];
      }
    }
  }

  /** A tag at i with none before it is the one FindHead reports. */
  lemma FirstHeadUnique(body: seq<byte>, i: nat)
    requires IsHeadAt(body, i)
    requires forall j :: 0 <= j < i ==> !IsHeadAt(body, j)
    ensures FindHead(body) == Some(i)
  {
    var r := FindHead(body);
    assert r.Some?;
    assert !(r.value < i);
    assert !(r.value > i);
  }

  /** With a match the body grows by exactly the code; without one it keeps its length. */
  lemma InjectedLength(body: seq<byte>, code: seq<byte>)
    ensures |Injected(body, code)| == |body| + if FindHead(body).Some? then |code| else 0
  {
  }

  /** Cutting the code back out of an injected body gives the original body, and the code
      sits right after the first `<head>`. */
  lemma {:induction false} Uninject(body: seq<byte>, code: seq<byte>)
    requires FindHead(body).Some?
    ensures var i := FindHead(body).value + |HeadTag|;
      var out := Injected(body, code);
      out[..i] + out[i + |code|..] == body && out[i..i + |code|] == code
  {
    var i := FindHead(body).value + |HeadTag|;
    var out := Injected(body, code);
    assert out == body[..i] + code + body[i..];
    assert out[..i] == body[..i];
    assert out[i + |code|..] == body[i..];
    assert out[i..i + |code|] == code;
  }

  /** No two `<head>` tags overlap: a later one starts after the first one ends. */
  lemma HeadsDisjoint(body: seq<byte>, i: int, j: int)
    requires IsHeadAt(body, i) && IsHeadAt(body, j) && i < j
    ensures j >= i + |HeadTag|
  {
    assert body[j] == body[j..j + |HeadTag|][0] == 60;
    assert forall k :: i < k < i + |HeadTag| ==> body[k] == body[i..i + |HeadTag|][k - i] != 60;
  }

  /** Only the first `<head>` is injected after: every later one survives, shifted by the
      length of the code. */
  lemma LaterHeadsUntouched(body: seq<byte>, code: seq<byte>, j: int)
    requires FindHead(body).Some? && IsHeadAt(body, j) && j > FindHead(body).value
    ensures IsHeadAt(Injected(body, code), j + |code|)
  {
    var i := FindHead(body).value;
    var c := i + |HeadTag|;
    assert c <= j by {
      HeadsDisjoint(body, i, j);
    }
    assert Injected(body, code) == body[..c] + code + body[c..];
    SpliceSlice(body, code, c, j, |HeadTag|);
  }

  /** The bytes after the code are those of the body from the cut on, shifted by the code's
      length. */
  lemma SpliceSlice(body: seq<byte>, code: seq<byte>, c: nat, j: nat, n: nat)
    requires c <= j && j + n <= |body|
    ensures (body[..c] + code + body[c..])[j + |code|..j + |code| + n] == body[j..j + n]
  {
    var out := body[..c] + code + body[c..];
    assert out[c + |code|..] == body[c..];
    assert body[c..][j - c..j - c + n] == body[j..j + n];
  }

  /** The bytes `<HEAD>`. */
  const UpperHead: seq<byte> := [60, 72, 69, 65, 68, 62]

  /** The bytes `<head lang=en>`. */
  const HeadWithLang: seq<byte> := [60, 104, 101, 97, 100, 32, 108, 97, 110, 103, 61, 101, 110, 62]

  /** A head tag in upper case or with attributes is not matched: the body is unchanged. */
  lemma InexactHeadUntouched(code: seq<byte>)
    ensures Injected(UpperHead, code) == UpperHead
    ensures Injected(HeadWithLang, code) == HeadWithLang
  {
    HeadAtBytes(UpperHead, 0);
    assert UpperHead[0 + 1] != HeadTag[1];
    forall j | 0 <= j < |HeadWithLang| ensures !IsHeadAt(HeadWithLang, j) {
      HeadAtBytes(HeadWithLang, j);
      if j == 0 {
        assert HeadWithLang[j + 5] != HeadTag[5];
      } else {
        assert HeadWithLang[j + 0] != HeadTag[0];
      }
    }
  }

  /** An HTTP response as the reverse proxy hands it over. */
  class Response {
    var contentType: string
    var body: seq<byte>
    var contentLength: Option<string>

    constructor (contentType: string, body: seq<byte>)
      ensures this.contentType == contentType && this.body == body && contentLength.None?
    {
      this.contentType := contentType;
      this.body := body;
      contentLength := None;
    }
  }

  // ---- the proxy ----

  const Second: int := 1_000_000_000

  /** The downstream URL: `http://` is put in front of a host that does not start with `http`. */
  function NormalisedHost(host: string): (r: string)
  {
    if HasPrefix(host, "http") then host else "http://" + host
  }

  /** Normalising gives a URL that starts with `http`, keeps the host as its suffix, and
      changes nothing when applied again. */
  lemma NormalisedHostProps(host: string)
    ensures HasPrefix(NormalisedHost(host), "http")
    ensures HasSuffix(NormalisedHost(host), host)
    ensures NormalisedHost(NormalisedHost(host)) == NormalisedHost(host)
    ensures HasPrefix(host, "http") ==> NormalisedHost(host) == host
  {
    var r := NormalisedHost(host);
    assert r[|r| - |host|..] == host;
    if !HasPrefix(host, "http") {
      assert r[..4] == "http";
    }
  }

  /** initProxy's default for a zero downstream timeout, as written: the constant 5 given to a
      duration counted in nanoseconds. */
  function InitTimeoutAsWritten(timeout: int): int {
    if timeout == 0 then 5 else timeout
  }

  /** As written, a proxy configured without a timeout waits 5 nanoseconds, which is shorter
      than any timeout the configuration file can express (whole seconds). */
  lemma DefaultTimeoutIsNanoseconds(seconds: int)
    requires seconds >= 1
    ensures InitTimeoutAsWritten(0 * Second) == 5
    ensures InitTimeoutAsWritten(0 * Second) < InitTimeoutAsWritten(seconds * Second)
  {
  }

  /** The default the code evidently intends: five seconds. */
  function InitTimeout(timeout: int): (t: int)
    ensures timeout == 0 ==> t == 5 * Second
    ensures timeout != 0 ==> t == timeout
  {
    if timeout == 0 then 5 * Second else timeout
  }

  /** With the corrected default, a timeout of whole non-negative seconds is at least one
      second, and the default is five of them. */
  lemma {:induction false} InitTimeoutSeconds(seconds: int)
    requires seconds >= 0
    ensures InitTimeout(seconds * Second) == (if seconds == 0 then 5 else seconds) * Second
    ensures InitTimeout(seconds * Second) >= Second
  {
    if seconds != 0 {
      assert seconds * Second >= Second;
    }
  }

  /** Notify's filter: the message published to the browser, if any. */
  function Published(enabled: bool, n: Notification): (r: Option<string>)
    ensures r.Some? <==> enabled && n.ntype in {HardRestart, SoftRestart, IPC}
    ensures r.Some? ==> r.value == n.message
  {
    if enabled && n.ntype in {HardRestart, SoftRestart, IPC} then Some(n.message) else None
  }

  class WebProxy {
    var isEnabled: bool
    var port: int
    var downstreamHost: string
    /** nanoseconds */
    var downstreamTimeout: int
    var injectCode: string
    /** whether the SSE and HTTP servers were created */
    var serving: bool
    /** the events published on the "hmr" stream, in order */
    var published: seq<string>

    constructor (enabled: bool, listenPort: int, host: string, timeoutSeconds: int)
      ensures isEnabled == enabled && port == listenPort && downstreamHost == host
      ensures downstreamTimeout == timeoutSeconds * Second
      ensures injectCode == "" && !serving && published == []
    {
      isEnabled := enabled;
      port := listenPort;
      downstreamHost := host;
      downstreamTimeout := timeoutSeconds * Second;
      injectCode := "";
      serving := false;
      published := [];
    }

    /** New: the proxy built from the configuration (its timeout given in seconds), then
        initialised; no proxy is returned when initialisation fails. */
    static method New(cfg: Config, urlErr: Option<string>) returns (p: WebProxy?, err: Option<string>)
      ensures err.Some? <==> p == null
      ensures p != null ==> fresh(p) && p.published == []
      ensures p != null ==> p.isEnabled == cfg.proxyEnabled
      ensures p != null ==> p.port == if cfg.proxyEnabled && cfg.proxyPort == 0 then 4000 else cfg.proxyPort
      ensures err.Some? <==> (cfg.proxyEnabled || cfg.proxyPort != 0) && (cfg.downstreamHost == "" || urlErr.Some?)
    {
      var proxy := new WebProxy(cfg.proxyEnabled, cfg.proxyPort, cfg.downstreamHost, cfg.downstreamTimeout);
      err := proxy.InitProxy(urlErr);
      if err.Some? {
        return null, err;
      }
      return proxy, None;
    }

    /** initProxy: a disabled proxy without a port is left alone; a zero port becomes 4000 and
        enables the proxy; an empty downstream host is an error; the host gets an `http://`
        scheme when it has none, a zero timeout gets the default, and the servers are created
        unless the URL does not parse. */
    method InitProxy(urlErr: Option<string>) returns (err: Option<string>)
      modifies this
      ensures !old(isEnabled) && old(port) == 0 ==> err.None? && unchanged(this)
      ensures old(isEnabled) || old(port) != 0 ==>
        port == (if old(port) == 0 then 4000 else old(port)) &&
        isEnabled == (old(isEnabled) || old(port) == 0)
      ensures old(isEnabled) || old(port) != 0 ==> (err.Some? <==> old(downstreamHost) == "" || urlErr.Some?)
      ensures (old(isEnabled) || old(port) != 0) && old(downstreamHost) == "" ==>
        err == Some("downstream host:port is required") && downstreamHost == old(downstreamHost) &&
        downstreamTimeout == old(downstreamTimeout) && injectCode == old(injectCode) && serving == old(serving)
      ensures (old(isEnabled) || old(port) != 0) && old(downstreamHost) != "" ==>
        downstreamHost == NormalisedHost(old(downstreamHost)) &&
        downstreamTimeout == InitTimeout(old(downstreamTimeout)) && injectCode == InjectCode
      ensures (old(isEnabled) || old(port) != 0) && old(downstreamHost) != "" && urlErr.Some? ==>
        err == Some("downstream host: " + urlErr.value) && serving == old(serving)
      ensures (old(isEnabled) || old(port) != 0) && old(downstreamHost) != "" && urlErr.None? ==> serving
      ensures published == old(published)
    {
      if !isEnabled && port == 0 {
        return None;
      }
      if port == 0 {
        port := 4000;
        isEnabled := true;
      }
      if downstreamHost == "" {
        return Some("downstream host:port is required");
      }
      if !HasPrefix(downstreamHost, "http") {
        downstreamHost := "http://" + downstreamHost;
      }
      if downstreamTimeout == 0 {
        downstreamTimeout := 5 * Second;
      }
      injectCode := InjectCode;
      if urlErr.Some? {
        return Some("downstream host: " + urlErr.value);
      }
      serving := true;
      return None;
    }

    /** Notify: restart and IPC notifications are published to the browser while enabled. */
    method Notify(n: Notification)
      modifies this`published
      ensures published == old(published) + match Published(isEnabled, n) case Some(m) => [m] case None => []
    {
      if !isEnabled {
        return;
      }
      match n.ntype {
        case HardRestart | SoftRestart | IPC =>
          published := published + [n.message];
        case _ =>
      }
    }

    /** proxyRequest: a response that is not HTML is left untouched; otherwise the body is
        read, the script is injected after the first `<head>`, and Content-Length is set to
        the new body's length. A read failure is returned. */
    method ProxyRequest(res: Response, readErr: Option<string>) returns (err: Option<string>)
      requires forall i :: 0 <= i < |injectCode| ==> injectCode[i] as int < 256
      modifies res
      ensures !HasPrefix(old(res.contentType), "text/html") ==> err.None? && unchanged(res)
      ensures HasPrefix(old(res.contentType), "text/html") && readErr.Some? ==> err == readErr && unchanged(res)
      ensures HasPrefix(old(res.contentType), "text/html") && readErr.None? ==>
        err.None? && res.body == Injected(old(res.body), Ascii(injectCode)) &&
        res.contentLength == Some(Itoa(|res.body|)) && res.contentType == old(res.contentType)
    {
      if !HasPrefix(res.contentType, "text/html") {
        return None;
      }
      if readErr.Some? {
        return readErr;
      }
      var outBuf, matched := InjectAfterHead(res.body, Ascii(injectCode));
      res.body := outBuf;
      res.contentLength := Some(Itoa(|outBuf|));
      return None;
    }
  }
}
