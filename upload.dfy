/** Issuing an upload URL and reacting to the storage webhook, in Go
    (Generate_upload_url, Handle_s3_event) and Python (generate_upload_url,
    handle_s3_event). The upload key `pending/{videoID}.{ext}` handed out by
    the first is what the second receives and turns back into the video id
    the worker is started with. UUID generation, the MIME lookup, presigning,
    percent-decoding and the job queue are parameters. */
module Upload {
  import opened Wrappers
  import opened Text
  import JsonText
  import Bytes

  const PendingPrefix := "pending/"
  const DefaultExtension := "mp4"
  const LocalEndpoint := "http://localhost:9000"
  const OctetStream := "application/octet-stream"

  // ---------------------------------------------------------------------
  // Video ids

  predicate LowerHex(c: char)
  {
    ('0' <= c <= '9') || ('a' <= c <= 'f')
  }

  /** Lower-case hex, two digits per byte, most significant first. */
  function Hex(bs: seq<Bytes.byte>): (s: string)
    ensures |s| == 2 * |bs|
    ensures forall i :: 0 <= i < |s| ==> LowerHex(s[i])
  {
    if bs == [] then []
    else [JsonText.HexDigit(bs[0] / 16), JsonText.HexDigit(bs[0] % 16)] + Hex(bs[1..])
  }

  /** Reading the digits back gives the bytes: the pair at 2i and 2i+1 is
      the high and low half of byte i. */
  lemma {:induction false} HexDecodes(bs: seq<Bytes.byte>)
    ensures forall i :: 0 <= i < |bs| ==>
      && JsonText.HexValue(Hex(bs)[2 * i]) == Some(bs[i] / 16)
      && JsonText.HexValue(Hex(bs)[2 * i + 1]) == Some(bs[i] % 16)
      && bs[i] == 16 * JsonText.HexValue(Hex(bs)[2 * i]).value + JsonText.HexValue(Hex(bs)[2 * i + 1]).value
  {
    if bs != [] {
      HexDecodes(bs[1..]);
      JsonText.HexDigitValue(bs[0] / 16);
      JsonText.HexDigitValue(bs[0] % 16);
      assert Hex(bs)[2..] == Hex(bs[1..]);
      forall i | 1 <= i < |bs|
        ensures Hex(bs)[2 * i] == Hex(bs[1..])[2 * (i - 1)]
        ensures Hex(bs)[2 * i + 1] == Hex(bs[1..])[2 * (i - 1) + 1]
        ensures bs[i] == bs[1..][i - 1]
      {
      }
    }
  }

  /** Distinct byte strings have distinct hex texts. */
  lemma HexInjective(a: seq<Bytes.byte>, b: seq<Bytes.byte>)
    requires Hex(a) == Hex(b)
    ensures a == b
  {
    HexDecodes(a);
    HexDecodes(b);
    assert |a| == |b|;
    forall i | 0 <= i < |a|
      ensures a[i] == b[i]
    {
      assert Hex(a)[2 * i] == Hex(b)[2 * i] && Hex(a)[2 * i + 1] == Hex(b)[2 * i + 1];
    }
  }

  /** The canonical text of a UUID (Go uuid.UUID.String, Python str(uuid)):
      hex groups of 8, 4, 4, 4 and 12 digits joined by '-'. */
  function UuidText(u: seq<Bytes.byte>): (s: string)
    requires |u| == 16
    ensures |s| == 36
  {
    var h := Hex(u);
    h[..8] + "-" + (h[8..12] + "-" + (h[12..16] + "-" + (h[16..20] + "-" + h[20..])))
  }

  /** Go: the UUID text with every '-' removed. */
  function GoVideoID(u: seq<Bytes.byte>): string
    requires |u| == 16
  {
    RemoveChar(UuidText(u), '-')
  }

  /** Python: uuid4().hex. */
  function PyVideoID(u: seq<Bytes.byte>): string
    requires |u| == 16
  {
    Hex(u)
  }

  lemma NoDashInHex(s: string)
    requires forall i :: 0 <= i < |s| ==> LowerHex(s[i])
    ensures '-' !in s && '/' !in s && '.' !in s
    ensures RemoveChar(s, '-') == s
  {
  }

  /** Removing '-' from a dash-free group, a dash and the rest. */
  lemma RemoveDash(x: string, y: string)
    requires '-' !in x
    ensures RemoveChar(x + "-" + y, '-') == x + RemoveChar(y, '-')
  {
    RemoveCharAppend(x, "-" + y, '-');
    RemoveCharAppend("-", y, '-');
    assert RemoveChar("-", '-') == "";
    assert x + "-" + y == x + ("-" + y);
  }

  /** Cutting a dash-free 32-digit string into UUID groups and removing
      the dashes again gives it back. */
  lemma DashGroupsRemoved(h: string)
    requires |h| == 32 && '-' !in h
    ensures RemoveChar(h[..8] + "-" + (h[8..12] + "-" + (h[12..16] + "-" + (h[16..20] + "-" + h[20..]))), '-') == h
  {
    var a, b, c, d, e := h[..8], h[8..12], h[12..16], h[16..20], h[20..];
    assert h == a + (b + (c + (d + e)));
    RemoveDash(d, e);
    RemoveDash(c, d + "-" + e);
    RemoveDash(b, c + "-" + (d + "-" + e));
    RemoveDash(a, b + "-" + (c + "-" + (d + "-" + e)));
    assert '-' !in e by {
      assert forall k :: 0 <= k < |e| ==> e[k] == h[20 + k];
    }
  }

  /** Both servers hand out the same id for the same UUID: 32 lower-case
      hex digits, so it holds neither '/' nor '.'. */
  lemma VideoIDsAgree(u: seq<Bytes.byte>)
    requires |u| == 16
    ensures GoVideoID(u) == PyVideoID(u)
    ensures |PyVideoID(u)| == 32
    ensures forall i :: 0 <= i < 32 ==> LowerHex(PyVideoID(u)[i])
    ensures '/' !in PyVideoID(u) && '.' !in PyVideoID(u)
  {
    NoDashInHex(Hex(u));
    DashGroupsRemoved(Hex(u));
  }

  // ---------------------------------------------------------------------
  // Extensions and keys

  /** Go filepath.Ext on a '/'-separated path: the suffix from the last '.'
      of the final path element, or "" when that element has no '.'. */
  function GoExt(path: string): (e: string)
    ensures |e| <= |path| && e == path[|path| - |e|..]
    ensures e == [] || (e[0] == '.' && '.' !in e[1..])
    ensures '/' !in e
  {
    if path == [] then []
    else
      var c := path[|path| - 1];
      if c == '/' then []
      else if c == '.' then "."
      else
        var e := GoExt(path[..|path| - 1]);
        if e == [] then [] else e + [c]
  }

  /** Go: the extension lower-cased without its '.', or "mp4" when that is
      empty (no '.', or a trailing one). */
  function GoExtension(filename: string): (ext: string)
    ensures ext != []
  {
    var e := ToLowerAscii(TrimPrefix(GoExt(filename), "."));
    if e == "" then DefaultExtension else e
  }

  /** Python: the text after the last '.', as it is, when there is a '.'. */
  function PyExtension(filename: string): (ext: string)
    ensures '.' !in ext
  {
    if '.' in filename then
      var parts := Split(filename, '.');
      assert parts[|parts| - 1] in parts;
      parts[|parts| - 1]
    else DefaultExtension
  }

  /** The object key an upload is written under. */
  function UploadKey(videoID: string, ext: string): string
  {
    PendingPrefix + videoID + "." + ext
  }

  lemma {:induction false} GoExtOf(base: string, e: string)
    requires '.' !in e && '/' !in e
    ensures GoExt(base + "." + e) == "." + e
    decreases |e|
  {
    var s := base + "." + e;
    if e != [] {
      var e' := e[..|e| - 1];
      assert s[..|s| - 1] == base + "." + e';
      assert s[|s| - 1] == e[|e| - 1];
      GoExtOf(base, e');
      assert "." + e' + [e[|e| - 1]] == "." + e;
    }
  }

  lemma {:induction false} GoExtNone(path: string)
    requires '.' !in path
    ensures GoExt(path) == []
    decreases |path|
  {
    if path != [] {
      var p := path[..|path| - 1];
      assert forall c :: c in p ==> c in path;
      GoExtNone(p);
    }
  }

  lemma {:induction false} SplitLast(base: string, sep: char, e: string)
    requires sep !in e
    ensures var parts := Split(base + [sep] + e, sep);
      |parts| >= 2 && parts[|parts| - 1] == e
    decreases |base|
  {
    if sep in base {
      var a := FirstPiece(base, sep);
      var b := base[|a| + 1..];
      assert base == a + [sep] + b;
      SplitLast(b, sep, e);
      SplitPastFirst(a, b, sep, e);
    } else {
      SplitCons(base, sep, e);
      assert Split(e, sep) == [e];
    }
  }

  lemma SplitPastFirst(a: string, b: string, sep: char, e: string)
    requires sep !in a
    ensures Split(a + [sep] + b + [sep] + e, sep) == [a] + Split(b + [sep] + e, sep)
  {
    assert a + [sep] + b + [sep] + e == a + [sep] + (b + [sep] + e);
    SplitCons(a, sep, b + [sep] + e);
  }

  /** A name with an extension: Go lower-cases it, Python keeps it as it
      is. */
  lemma ExtensionOf(base: string, e: string)
    requires e != [] && '.' !in e && '/' !in e
    ensures GoExtension(base + "." + e) == ToLowerAscii(e)
    ensures PyExtension(base + "." + e) == e
  {
    GoExtOf(base, e);
    assert TrimPrefix("." + e, ".") == e;
    SplitLast(base, '.', e);
    var s := base + "." + e;
    assert s[|base|] == '.';
  }

  /** A name ending in '.': Go falls back to mp4, Python keeps the empty
      extension, so its key ends in '.'. */
  lemma TrailingDot(base: string)
    ensures GoExtension(base + ".") == DefaultExtension
    ensures PyExtension(base + ".") == ""
  {
    GoExtOf(base, "");
    assert base + "." + "" == base + ".";
    assert TrimPrefix(".", ".") == "";
    SplitLast(base, '.', "");
  }

  /** A name without '.': both fall back to mp4. */
  lemma NoExtension(name: string)
    requires '.' !in name
    ensures GoExtension(name) == DefaultExtension && PyExtension(name) == DefaultExtension
  {
    GoExtNone(name);
  }

  /** When the extension has no upper-case letter both servers derive the
      same key from the same UUID and name. */
  lemma UploadKeysAgree(u: seq<Bytes.byte>, base: string, e: string)
    requires |u| == 16
    requires e != [] && '.' !in e && '/' !in e
    requires forall i :: 0 <= i < |e| ==> !IsAsciiUpper(e[i])
    ensures UploadKey(GoVideoID(u), GoExtension(base + "." + e))
         == UploadKey(PyVideoID(u), PyExtension(base + "." + e))
  {
    VideoIDsAgree(u);
    ExtensionOf(base, e);
    assert ToLowerAscii(e) == e;
  }

  // ---------------------------------------------------------------------
  // Content type, scheme, host and the public URL

  /** Go: mime.TypeByExtension("." + ext), octet-stream when it gives "". */
  function GoContentType(byExtension: string -> string, ext: string): (t: string)
    ensures t != ""
  {
    var t := byExtension("." + ext);
    if t == "" then OctetStream else t
  }

  /** Python: mimetypes.guess_type(filename)[0], octet-stream when falsy. */
  function PyContentType(guess: string -> Option<string>, filename: string): (t: string)
    ensures t != ""
  {
    match guess(filename)
    case None => OctetStream
    case Some(t) => if t == "" then OctetStream else t
  }

  /** Request headers as sent, by lower-case name. */
  type Headers = map<string, string>

  /** Python request.headers.get(name, default). */
  function PyHeader(h: Headers, name: string, default: string): string
  {
    if name in h then h[name] else default
  }

  /** Go's net/http server takes the Host header out of the header map and
      keeps it only as Request.Host; every other header stays. */
  function GoHeaderMap(h: Headers): (m: Headers)
    ensures "host" !in m
    ensures forall n :: n in h && n != "host" ==> n in m && m[n] == h[n]
  {
    h - {"host"}
  }

  /** gin's c.GetHeader: the header's value, or "". */
  function GoGetHeader(h: Headers, name: string): string
  {
    var m := GoHeaderMap(h);
    if name in m then m[name] else ""
  }

  /** Go's Request.Host for an origin-form request: the Host header. */
  function GoRequestHost(h: Headers): string
  {
    PyHeader(h, "host", "")
  }

  /** Go defaults the scheme when the header is absent or empty. */
  function GoProto(h: Headers): (p: string)
    ensures p != ""
  {
    var p := GoGetHeader(h, "x-forwarded-proto");
    if p == "" then "http" else p
  }

  /** Python defaults the scheme only when the header is absent. */
  function PyProto(h: Headers): string
  {
    PyHeader(h, "x-forwarded-proto", "http")
  }

  /** Every occurrence of the local storage endpoint becomes
      `{proto}://{host}`; an empty host leaves the URL as it is. */
  function PublicUrl(local: string, proto: string, host: string): string
  {
    if host == "" then local else ReplaceAll(local, LocalEndpoint, proto + "://" + host)
  }

  /** A presigned URL on the local endpoint is moved to the public origin
      and keeps its path and query. */
  lemma PublicUrlMovesOrigin(rest: string, proto: string, host: string)
    requires host != "" && !Occurs(LocalEndpoint, rest)
    ensures PublicUrl(LocalEndpoint + rest, proto, host) == proto + "://" + host + rest
  {
    ReplaceAllLeading(LocalEndpoint, rest, proto + "://" + host);
    ReplaceAllAbsent(rest, LocalEndpoint, proto + "://" + host);
  }

  /** A URL that does not mention the local endpoint is never changed. */
  lemma PublicUrlElsewhere(local: string, proto: string, host: string)
    requires !Occurs(LocalEndpoint, local)
    ensures PublicUrl(local, proto, host) == local
  {
    if host != "" {
      ReplaceAllAbsent(local, LocalEndpoint, proto + "://" + host);
    }
  }

  // ---------------------------------------------------------------------
  // The upload-URL handlers

  /** The reply: 500 when presigning fails, else the URL, id and key. */
  datatype UploadReply = UploadFailed(code: int) | UploadUrl(presignedUrl: string, videoID: string, s3Key: string)

  /** Generate_upload_url as written: the host comes from c.GetHeader("host"),
      which the server has already removed from the header map. */
  function GoUploadAsWritten(u: seq<Bytes.byte>, filename: string, byExtension: string -> string,
                             presign: (string, string) -> Option<string>, h: Headers): (r: UploadReply)
    requires |u| == 16
    ensures r.UploadFailed? <==> presign(UploadKey(GoVideoID(u), GoExtension(filename)),
                                          GoContentType(byExtension, GoExtension(filename))).None?
    ensures r.UploadFailed? ==> r.code == 500
    ensures r.UploadUrl? ==> r.videoID == GoVideoID(u) && r.s3Key == UploadKey(r.videoID, GoExtension(filename))
    ensures r.UploadUrl? ==>
      presign(r.s3Key, GoContentType(byExtension, GoExtension(filename))) == Some(r.presignedUrl)
  {
    var videoID := GoVideoID(u);
    var ext := GoExtension(filename);
    var key := UploadKey(videoID, ext);
    match presign(key, GoContentType(byExtension, ext))
    case None => UploadFailed(500)
    case Some(local) =>
      var host := GoGetHeader(h, "host");
      UploadUrl(PublicUrl(local, GoProto(h), host), videoID, key)
  }

  /** Generate_upload_url with the host read from Request.Host. */
  function GoUpload(u: seq<Bytes.byte>, filename: string, byExtension: string -> string,
                    presign: (string, string) -> Option<string>, h: Headers): (r: UploadReply)
    requires |u| == 16
    ensures r.UploadFailed? <==> presign(UploadKey(GoVideoID(u), GoExtension(filename)),
                                          GoContentType(byExtension, GoExtension(filename))).None?
    ensures r.UploadFailed? ==> r.code == 500
    ensures r.UploadUrl? ==> r.videoID == GoVideoID(u) && r.s3Key == UploadKey(r.videoID, GoExtension(filename))
  {
    var videoID := GoVideoID(u);
    var ext := GoExtension(filename);
    var key := UploadKey(videoID, ext);
    match presign(key, GoContentType(byExtension, ext))
    case None => UploadFailed(500)
    case Some(local) =>
      UploadUrl(PublicUrl(local, GoProto(h), GoRequestHost(h)), videoID, key)
  }

  /** generate_upload_url. */
  function PyUpload(u: seq<Bytes.byte>, filename: string, guess: string -> Option<string>,
                    presign: (string, string) -> Option<string>, h: Headers): (r: UploadReply)
    requires |u| == 16
    ensures r.UploadFailed? <==> presign(UploadKey(PyVideoID(u), PyExtension(filename)),
                                          PyContentType(guess, filename)).None?
    ensures r.UploadFailed? ==> r.code == 500
    ensures r.UploadUrl? ==> r.videoID == PyVideoID(u) && r.s3Key == UploadKey(r.videoID, PyExtension(filename))
  {
    var videoID := PyVideoID(u);
    var key := UploadKey(videoID, PyExtension(filename));
    match presign(key, PyContentType(guess, filename))
    case None => UploadFailed(500)
    case Some(local) =>
      UploadUrl(PublicUrl(local, PyProto(h), PyHeader(h, "host", "")), videoID, key)
  }

  /** As written, the Go handler never sees a host and so never moves the
      URL off the local endpoint, even when the request names one. */
  lemma GoHostNeverSeen(u: seq<Bytes.byte>, filename: string, byExtension: string -> string,
                        presign: (string, string) -> Option<string>, h: Headers)
    requires |u| == 16
    ensures GoGetHeader(h, "host") == ""
    ensures var r := GoUploadAsWritten(u, filename, byExtension, presign, h);
      r.UploadUrl? ==> presign(r.s3Key, GoContentType(byExtension, GoExtension(filename))) == Some(r.presignedUrl)
  {
  }

  /** Reading Request.Host, Go moves the URL to the origin the client used,
      as Python does. */
  lemma GoUploadUsesHost(u: seq<Bytes.byte>, filename: string, byExtension: string -> string,
                         presign: (string, string) -> Option<string>, h: Headers, rest: string)
    requires |u| == 16
    requires "host" in h && h["host"] != "" && !Occurs(LocalEndpoint, rest)
    requires presign(UploadKey(GoVideoID(u), GoExtension(filename)),
                     GoContentType(byExtension, GoExtension(filename))) == Some(LocalEndpoint + rest)
    ensures GoUpload(u, filename, byExtension, presign, h).presignedUrl == GoProto(h) + "://" + h["host"] + rest
    ensures PublicUrl(LocalEndpoint + rest, PyProto(h), PyHeader(h, "host", "")) == PyProto(h) + "://" + h["host"] + rest
  {
    PublicUrlMovesOrigin(rest, GoProto(h), h["host"]);
    PublicUrlMovesOrigin(rest, PyProto(h), h["host"]);
  }

  /** Python returns the presigned URL moved to the origin the client used
      when the request names a host. */
  lemma PyUploadUsesHost(u: seq<Bytes.byte>, filename: string, guess: string -> Option<string>,
                         presign: (string, string) -> Option<string>, h: Headers, rest: string)
    requires |u| == 16
    requires "host" in h && h["host"] != "" && !Occurs(LocalEndpoint, rest)
    requires presign(UploadKey(PyVideoID(u), PyExtension(filename)), PyContentType(guess, filename))
               == Some(LocalEndpoint + rest)
    ensures PyUpload(u, filename, guess, presign, h).presignedUrl == PyProto(h) + "://" + h["host"] + rest
  {
    PublicUrlMovesOrigin(rest, PyProto(h), h["host"]);
  }

  /** Without a Host header, or for a URL off the local endpoint, Python
      returns the presigned URL unchanged. */
  lemma PyUploadKeepsUrl(u: seq<Bytes.byte>, filename: string, guess: string -> Option<string>,
                         presign: (string, string) -> Option<string>, h: Headers)
    requires |u| == 16
    ensures var r := PyUpload(u, filename, guess, presign, h);
      r.UploadUrl? && ("host" !in h || !Occurs(LocalEndpoint, presign(r.s3Key, PyContentType(guess, filename)).value)) ==>
        presign(r.s3Key, PyContentType(guess, filename)) == Some(r.presignedUrl)
  {
    var r := PyUpload(u, filename, guess, presign, h);
    if r.UploadUrl? && "host" in h {
      var local := presign(r.s3Key, PyContentType(guess, filename)).value;
      if !Occurs(LocalEndpoint, local) {
        PublicUrlElsewhere(local, PyProto(h), h["host"]);
      }
    }
  }

  // ---------------------------------------------------------------------
  // The webhook

  /** A JSON value as the frameworks decode a request body. */
  datatype Json =
    | JNull
    | JBool(b: bool)
    | JNumber(n: int)
    | JString(s: string)
    | JArray(items: seq<Json>)
    | JObject(fields: map<string, Json>)

  /** The notification the storage server sends for one uploaded object,
      with its key percent-encoded. */
  function S3Event(encodedKey: string): Json
  {
    JObject(map["Records" := JArray([JObject(map["s3" := JObject(map["object" :=
      JObject(map["key" := JString(encodedKey)])])])])])
  }

  /** 200 with the job dispatched for (uploadID, s3Key), or an error code. */
  datatype WebhookReply = Dispatched(uploadID: string, s3Key: string) | Refused(code: int)

  /** The id in a key: the second '/'-piece up to its first '.'. */
  function KeyUploadID(key: string): (id: string)
    requires |Split(key, '/')| >= 2
    ensures '.' !in id && '/' !in id
  {
    var piece := Split(key, '/')[1];
    assert piece in Split(key, '/');
    var id := FirstPiece(piece, '.');
    assert '/' !in id by {
      if '/' in id {
        FirstPieceChars(piece, '.', '/');
      }
    }
    id
  }

  /** ShouldBindJSON into a map succeeds for an object and for null. */
  predicate GoBindable(body: Option<Json>)
  {
    body.Some? && (body.value.JObject? || body.value.JNull?)
  }

  /** A value asserted to map[string]interface{} and indexed: nil on a
      failed assertion or a missing field. */
  function GoField(v: Json, name: string): Json
  {
    if v.JObject? && name in v.fields then v.fields[name] else JNull
  }

  /** The records array, when it is an array. */
  function GoRecords(top: Json): seq<Json>
  {
    var r := GoField(top, "Records");
    if r.JArray? then r.items else []
  }

  /** The encoded key of a record: s3.object.key when it is a string, ""
      otherwise (the failed assertions of lines 135-137 yield zero values). */
  function GoEncodedKey(record: Json): string
  {
    var key := GoField(GoField(GoField(record, "s3"), "object"), "key");
    if key.JString? then key.s else ""
  }

  /** Handle_s3_event; `unescape` is url.QueryUnescape (None: malformed
      escape) and `dispatchOk` whether the job was queued. */
  function GoWebhook(body: Option<Json>, unescape: string -> Option<string>, dispatchOk: bool): (r: WebhookReply)
    ensures r == Refused(400) <==> !GoBindable(body)
    ensures r.Refused? ==> r.code in {400, 422, 500}
    ensures r.Dispatched? ==>
      dispatchOk && r.s3Key != "" && |Split(r.s3Key, '/')| >= 2 && r.uploadID == KeyUploadID(r.s3Key)
    ensures GoBindable(body) && (GoRecords(body.value) == [] || !GoRecords(body.value)[0].JObject?) ==>
      r == Refused(422)
    ensures GoBindable(body) && GoRecords(body.value) != [] && GoRecords(body.value)[0].JObject? ==>
      var k := unescape(GoEncodedKey(GoRecords(body.value)[0]));
      && (k.None? || k.value == "" || |Split(k.value, '/')| < 2 ==> r == Refused(422))
      && (k.Some? && k.value != "" && |Split(k.value, '/')| >= 2 ==>
            r == if dispatchOk then Dispatched(KeyUploadID(k.value), k.value) else Refused(500))
  {
    if !GoBindable(body) then Refused(400)
    else
      var records := GoRecords(body.value);
      if records == [] || !records[0].JObject? then Refused(422)
      else
        match unescape(GoEncodedKey(records[0]))
        case None => Refused(422)
        case Some(s3Key) =>
          if s3Key == "" || |Split(s3Key, '/')| < 2 then Refused(422)
          else if dispatchOk then Dispatched(KeyUploadID(s3Key), s3Key)
          else Refused(500)
  }

  /** What a Python expression raises: IndexError and KeyError are caught
      as 422, everything else as 500. */
  datatype Raised = LookupError | OtherError

  datatype PyValue = Value(v: Json) | Raise(e: Raised)

  /** dict.get(name, default); any other receiver has no `get`. */
  function PyGet(v: Json, name: string, default: Json): PyValue
  {
    if !v.JObject? then Raise(OtherError)
    else if name in v.fields then Value(v.fields[name])
    else Value(default)
  }

  /** v[0]: a list or string gives its first element (IndexError when
      empty), a dict has no key 0 (KeyError), anything else is not
      subscriptable. */
  function PyFirst(v: Json): PyValue
  {
    match v
    case JArray(items) => if items == [] then Raise(LookupError) else Value(items[0])
    case JString(s) => if s == [] then Raise(LookupError) else Value(JString([s[0]]))
    case JObject(_) => Raise(LookupError)
    case _ => Raise(OtherError)
  }

  /** The decoded key as lines 116-122 of handle_s3_event compute it, or
      what they raise. `unquotePlus` is urllib's unquote_plus, which
      accepts every string. */
  function PyDecodedKey(body: Option<Json>, unquotePlus: string -> string): (r: Result)
  {
    if body.None? then Failed(OtherError)
    else match PyGet(body.value, "Records", JArray([]))
      case Raise(e) => Failed(e)
      case Value(records) =>
        match PyFirst(records)
        case Raise(e) => Failed(e)
        case Value(record) =>
          match PyGet(record, "s3", JObject(map[]))
          case Raise(e) => Failed(e)
          case Value(s3) =>
            match PyGet(s3, "object", JObject(map[]))
            case Raise(e) => Failed(e)
            case Value(obj) =>
              match PyGet(obj, "key", JString(""))
              case Raise(e) => Failed(e)
              case Value(k) => if k.JString? then Decoded(unquotePlus(k.s)) else Failed(OtherError)
  }

  datatype Result = Decoded(key: string) | Failed(e: Raised)

  function Code(e: Raised): int
  {
    match e
    case LookupError => 422
    case OtherError => 500
  }

  /** Lines 128-132: the id and the job, for a non-empty key. A key with
      no '/' raises IndexError (422); a failed send is a 500. */
  function PyAccept(key: string, sendOk: bool): (r: WebhookReply)
    ensures r.Dispatched? <==> |Split(key, '/')| >= 2 && sendOk
    ensures r.Dispatched? ==> r == Dispatched(KeyUploadID(key), key)
    ensures r.Refused? ==> r.code == (if |Split(key, '/')| < 2 then 422 else 500)
  {
    if |Split(key, '/')| < 2 then Refused(Code(LookupError))
    else if sendOk then Dispatched(KeyUploadID(key), key)
    else Refused(Code(OtherError))
  }

  /** handle_s3_event as written: the 422 raised for an empty key is caught
      by the catch-all handler and re-raised as 500. */
  function PyWebhookAsWritten(body: Option<Json>, unquotePlus: string -> string, sendOk: bool): (r: WebhookReply)
    ensures r.Refused? ==> r.code in {422, 500}
    ensures var k := PyDecodedKey(body, unquotePlus);
      && (k.Failed? ==> r == Refused(Code(k.e)))
      && (k == Decoded("") ==> r == Refused(500))
      && (k.Decoded? && k.key != "" ==> r == PyAccept(k.key, sendOk))
  {
    match PyDecodedKey(body, unquotePlus)
    case Failed(e) => Refused(Code(e))
    case Decoded(key) => if key == "" then Refused(Code(OtherError)) else PyAccept(key, sendOk)
  }

  /** handle_s3_event with the empty key answered 422, as its message says. */
  function PyWebhook(body: Option<Json>, unquotePlus: string -> string, sendOk: bool): (r: WebhookReply)
    ensures r.Refused? ==> r.code in {422, 500}
    ensures r.Dispatched? ==>
      sendOk && r.s3Key != "" && |Split(r.s3Key, '/')| >= 2 && r.uploadID == KeyUploadID(r.s3Key)
    ensures var k := PyDecodedKey(body, unquotePlus);
      && (k.Failed? ==> r == Refused(Code(k.e)))
      && (k == Decoded("") ==> r == Refused(422))
      && (r.Dispatched? <==> k.Decoded? && k.key != "" && |Split(k.key, '/')| >= 2 && sendOk)
      && (r.Dispatched? ==> r.s3Key == k.key)
      && (k.Decoded? && k.key != "" && |Split(k.key, '/')| < 2 ==> r == Refused(422))
      && (k.Decoded? && k.key != "" && |Split(k.key, '/')| >= 2 && !sendOk ==> r == Refused(500))
  {
    match PyDecodedKey(body, unquotePlus)
    case Failed(e) => Refused(Code(e))
    case Decoded(key) => if key == "" then Refused(Code(LookupError)) else PyAccept(key, sendOk)
  }

  lemma {:induction false} IndexOfAfter(x: string, y: string, c: char)
    requires c !in x
    ensures IndexOf(x + y, c) == |x| + IndexOf(y, c)
    decreases |x|
  {
    if x != [] {
      assert (x + y)[0] == x[0];
      assert (x + y)[1..] == x[1..] + y;
      IndexOfAfter(x[1..], y, c);
    } else {
      assert x + y == y;
    }
  }

  lemma PrefixAcross(x: string, y: string, k: nat)
    requires k <= |y|
    ensures (x + y)[..|x| + k] == x + y[..k]
  {
  }

  /** The second '/'-piece of an upload key: the id, '.', and the
      extension up to any '/' in it. */
  lemma KeySecondPiece(videoID: string, ext: string)
    requires '/' !in videoID
    ensures var parts := Split(UploadKey(videoID, ext), '/');
      |parts| >= 2 && parts[1] == videoID + "." + FirstPiece(ext, '/')
  {
    var rest := videoID + "." + ext;
    assert UploadKey(videoID, ext) == "pending" + ['/'] + rest;
    SplitCons("pending", '/', rest);
    FirstPieceIsSplitHead(rest, '/');
    IndexOfAfter(videoID + ".", ext, '/');
    PrefixAcross(videoID + ".", ext, IndexOf(ext, '/'));
  }

  /** The key handed out for an upload gives its video id back, whatever
      the extension. */
  lemma KeyRoundTrip(videoID: string, ext: string)
    requires '/' !in videoID && '.' !in videoID
    ensures var key := UploadKey(videoID, ext);
      |Split(key, '/')| >= 2 && KeyUploadID(key) == videoID
  {
    KeySecondPiece(videoID, ext);
    var piece := videoID + "." + FirstPiece(ext, '/');
    IndexOfAfterPrefix(videoID, '.', FirstPiece(ext, '/'));
    assert FirstPiece(piece, '.') == videoID;
  }

  /** What each server reads out of a storage notification: the record is
      an object and its key the encoded text. */
  lemma GoEventKey(encoded: string)
    ensures GoBindable(Some(S3Event(encoded)))
    ensures var records := GoRecords(S3Event(encoded));
      records != [] && records[0].JObject?
      && GoField(GoField(GoField(records[0], "s3"), "object"), "key") == JString(encoded)
  {
  }

  lemma PyEventKey(encoded: string, unquotePlus: string -> string)
    ensures PyDecodedKey(Some(S3Event(encoded)), unquotePlus) == Decoded(unquotePlus(encoded))
  {
  }

  /** The notification for an uploaded key starts the job for the id the
      upload was issued under, on both servers. */
  lemma WebhookFindsUpload(videoID: string, ext: string, encoded: string,
                           unescape: string -> Option<string>, unquotePlus: string -> string)
    requires '/' !in videoID && '.' !in videoID
    requires unescape(encoded) == Some(UploadKey(videoID, ext))
    requires unquotePlus(encoded) == UploadKey(videoID, ext)
    ensures GoWebhook(Some(S3Event(encoded)), unescape, true) == Dispatched(videoID, UploadKey(videoID, ext))
    ensures PyWebhook(Some(S3Event(encoded)), unquotePlus, true) == Dispatched(videoID, UploadKey(videoID, ext))
    ensures PyWebhookAsWritten(Some(S3Event(encoded)), unquotePlus, true) == Dispatched(videoID, UploadKey(videoID, ext))
  {
    KeyRoundTrip(videoID, ext);
    GoEventKey(encoded);
    PyEventKey(encoded, unquotePlus);
  }

  /** An event whose key decodes to "": Go answers 422; Python as written
      answers 500, the corrected handler 422. */
  lemma EmptyKeyAnswers(encoded: string, unescape: string -> Option<string>, unquotePlus: string -> string, ok: bool)
    requires unescape(encoded) == Some("") && unquotePlus(encoded) == ""
    ensures GoWebhook(Some(S3Event(encoded)), unescape, ok) == Refused(422)
    ensures PyWebhookAsWritten(Some(S3Event(encoded)), unquotePlus, ok) == Refused(500)
    ensures PyWebhook(Some(S3Event(encoded)), unquotePlus, ok) == Refused(422)
  {
    GoEventKey(encoded);
    PyEventKey(encoded, unquotePlus);
  }

  /** On a well-formed notification whose key both decoders read alike, Go
      and the corrected Python handler give the same answer. */
  lemma WebhooksAgree(encoded: string, unescape: string -> Option<string>, unquotePlus: string -> string, ok: bool)
    requires unescape(encoded) == Some(unquotePlus(encoded))
    ensures GoWebhook(Some(S3Event(encoded)), unescape, ok) == PyWebhook(Some(S3Event(encoded)), unquotePlus, ok)
  {
    GoEventKey(encoded);
    PyEventKey(encoded, unquotePlus);
  }

  /** A body that is not JSON: Go answers 400, Python 500. A record list
      that is missing or empty: both answer 422. */
  lemma MalformedBodies(unescape: string -> Option<string>, unquotePlus: string -> string, ok: bool)
    ensures GoWebhook(None, unescape, ok) == Refused(400)
    ensures PyWebhook(None, unquotePlus, ok) == Refused(500)
    ensures GoWebhook(Some(JObject(map[])), unescape, ok) == Refused(422)
    ensures PyWebhook(Some(JObject(map[])), unquotePlus, ok) == Refused(422)
    ensures GoWebhook(Some(JObject(map["Records" := JArray([])])), unescape, ok) == Refused(422)
    ensures PyWebhook(Some(JObject(map["Records" := JArray([])])), unquotePlus, ok) == Refused(422)
  {
  }
}
