/** The read-through caches of the three GET endpoints that rebuild content
    from storage: the signed variant playlist (Sign_segments /
    signed_segments), the rewritten master playlist (Modified_master /
    modified_master) and the job status (Stream_status / get_status).
    Each endpoint reads one Redis key, decides whether the cached value can
    be served, and otherwise rebuilds the body, answers with it and asks for
    it to be stored under the same key with a lifetime. The Redis read, the
    storage fetch and the clock are inputs; the write is part of the result. */
module CachePolicy {
  import opened Wrappers
  import opened Dialects
  import opened Text
  import Bytes
  import Signer
  import Numbers
  import VariantPlaylist
  import MasterPlaylist
  import StatusAggregation

  /** Lifetime of a signature, in seconds: 1800 in the Go server, 3600 in
      the Python one. */
  function TTL(d: Dialect): (t: int)
    ensures t > RefreshThreshold
  {
    match d
    case Go => 1800
    case Python => 3600
  }

  /** A cached playlist is re-signed once fewer than 25 minutes of its
      signatures remain. */
  const RefreshThreshold: int := 25 * 60

  /** Redis keeps a cached playlist five minutes longer than its signatures. */
  function PlaylistLifetime(d: Dialect): int
  {
    TTL(d) + 300
  }

  /** What a cache read yields: nothing (no key, an empty value or a failed
      read), a value the JSON decoder rejects, or a decoded value. */
  datatype CacheRead<T> = Miss | Undecodable | Hit(entry: T)

  /** The decoded playlist object: a field absent from the JSON is None. */
  datatype PlaylistRecord = PlaylistRecord(playlist: Option<string>, expiresAt: Option<int>)

  /** The decoded master object. */
  datatype MasterRecord = MasterRecord(playlist: Option<string>)

  /** The status body, as cached and as served. */
  datatype StatusBody = StatusBody(uploadID: string, status: string, resolutions: seq<int>)

  /** The HTTP answer: a 200 with a body, or an error status. */
  datatype Response<B> = Served(body: B) | Failed(code: int)

  /** A cache write: key, stored value and lifetime in seconds. */
  datatype Write<T> = Write(key: string, value: T, lifetime: int)

  datatype Outcome<B, T> = Outcome(response: Response<B>, write: Option<Write<T>>)

  function PlaylistKey(videoID: string, resolutionPath: string): string
  {
    "playlist:" + videoID + ":" + resolutionPath
  }

  function MasterCacheKey(videoID: string): string
  {
    "master:" + videoID
  }

  function StatusKey(uploadID: string): string
  {
    "upload_status:" + uploadID
  }

  /** The cached playlist that may be served at time `now`, or None to
      rebuild. Go decodes into a struct, so a missing playlist reads as ""
      and a missing expiry as 0. Python's dict lookups raise on a missing
      field (None minus an int, or a KeyError), and the handler treats every
      exception as a miss. */
  function CachedPlaylist(d: Dialect, read: CacheRead<PlaylistRecord>, now: int): Option<string>
  {
    match read
    case Miss => None
    case Undecodable => None
    case Hit(e) =>
      match d
      case Go =>
        var expiresAt := if e.expiresAt.Some? then e.expiresAt.value else 0;
        if expiresAt - now > RefreshThreshold then
          Some(if e.playlist.Some? then e.playlist.value else "")
        else None
      case Python =>
        if e.expiresAt.None? then None
        else if e.expiresAt.value - now <= RefreshThreshold then None
        else if e.playlist.None? then None
        else Some(e.playlist.value)
  }

  /** The variant-playlist endpoint. `fetched` is the stored playlist text,
      None when storage fails or (Python) the bytes are not UTF-8; Python
      passes Signer.PySecretText of its environment variable as `secret`. */
  function ServePlaylist(d: Dialect, md5: seq<Bytes.byte> -> Signer.Digest, secret: string,
                         read: CacheRead<PlaylistRecord>, now: int, fetched: Option<string>,
                         videoID: string, resolutionPath: string): (o: Outcome<string, PlaylistRecord>)
    ensures o.write.Some? <==> CachedPlaylist(d, read, now).None? && fetched.Some?
    ensures o.response.Failed? <==> CachedPlaylist(d, read, now).None? && fetched.None?
    ensures o.response.Failed? ==> o.response.code == 404
    ensures CachedPlaylist(d, read, now).Some? ==> o.response == Served(CachedPlaylist(d, read, now).value)
    ensures CachedPlaylist(d, read, now).None? && fetched.Some? ==>
      o.response == Served(VariantPlaylist.RewritePlaylist(d, md5, fetched.value, videoID, resolutionPath, now + TTL(d), secret))
    ensures o.write.Some? ==>
      && o.write.value.key == PlaylistKey(videoID, resolutionPath)
      && o.write.value.value == Rebuilt(o.response.body, d, now)
      && o.write.value.lifetime == PlaylistLifetime(d)
  {
    match CachedPlaylist(d, read, now)
    case Some(body) => Outcome(Served(body), None)
    case None =>
      match fetched
      case None => Outcome(Failed(404), None)
      case Some(content) =>
        var expires := now + TTL(d);
        var body := VariantPlaylist.RewritePlaylist(d, md5, content, videoID, resolutionPath, expires, secret);
        Outcome(Served(body), Some(Write(PlaylistKey(videoID, resolutionPath), PlaylistRecord(Some(body), Some(expires)), PlaylistLifetime(d))))
  }

  /** The record a rebuild at time `written` stores. */
  function Rebuilt(body: string, d: Dialect, written: int): PlaylistRecord
  {
    PlaylistRecord(Some(body), Some(written + TTL(d)))
  }

  /** A playlist rebuilt at `written` is served from the cache exactly while
      more than 25 minutes of its signatures remain: until `written` + 300 in
      Go and `written` + 2100 in Python. */
  lemma FreshWindow(d: Dialect, body: string, written: int, now: int)
    ensures CachedPlaylist(d, Hit(Rebuilt(body, d, written)), now) == Some(body)
            <==> now < written + TTL(d) - RefreshThreshold
    ensures d == Go ==> TTL(d) - RefreshThreshold == 300
    ensures d == Python ==> TTL(d) - RefreshThreshold == 2100
    ensures CachedPlaylist(d, Hit(Rebuilt(body, d, written)), now) in {None, Some(body)}
  {
  }

  /** Redis still holds the entry for the whole fresh window and for a
      further 1800 seconds after it, during which the stale entry is
      rebuilt rather than served. */
  lemma LifetimeCoversWindow(d: Dialect, body: string, written: int, now: int)
    requires CachedPlaylist(d, Hit(Rebuilt(body, d, written)), now).Some?
    ensures now < written + PlaylistLifetime(d) - RefreshThreshold
  {
    FreshWindow(d, body, written, now);
  }

  /** Signatures are never served with less than 25 minutes left: whatever
      expiry a cached record claims, serving it means that expiry is more
      than 1500 seconds ahead (Go treats a missing expiry as 0). */
  lemma ServedIsFresh(d: Dialect, e: PlaylistRecord, now: int)
    requires CachedPlaylist(d, Hit(e), now).Some?
    ensures d == Python ==> e.expiresAt.Some? && e.playlist.Some?
    ensures e.expiresAt.Some? ==> e.expiresAt.value > now + RefreshThreshold
    ensures e.expiresAt.None? ==> now < -RefreshThreshold
  {
  }

  /** What a rebuild writes is what a later read serves, unchanged, while it
      is fresh: the response after the write equals the response of the
      rebuild, and no further write is asked for. */
  lemma PlaylistWriteThenRead(d: Dialect, md5: seq<Bytes.byte> -> Signer.Digest, secret: string,
                              read: CacheRead<PlaylistRecord>, now: int, content: string,
                              videoID: string, resolutionPath: string,
                              later: int, fetchedLater: Option<string>)
    requires CachedPlaylist(d, read, now).None?
    requires now <= later < now + TTL(d) - RefreshThreshold
    ensures var o := ServePlaylist(d, md5, secret, read, now, Some(content), videoID, resolutionPath);
      o.write.Some? &&
      ServePlaylist(d, md5, secret, Hit(o.write.value.value), later, fetchedLater, videoID, resolutionPath)
        == Outcome(o.response, None)
  {
    var o := ServePlaylist(d, md5, secret, read, now, Some(content), videoID, resolutionPath);
    var body := o.response.body;
    assert o.write.value.value == Rebuilt(body, d, now);
    FreshWindow(d, body, now, later);
  }

  /** A segment URL served from the cache still has more than 25 minutes of
      validity: every matching line of a playlist rebuilt at `written` and
      served at `later` passes the signature check with an expiry beyond
      `later` + 1500, and the other lines are the stored ones unchanged. */
  lemma ServedSignaturesOutlive(d: Dialect, md5: seq<Bytes.byte> -> Signer.Digest, secret: string,
                                content: string, videoID: string, resolutionPath: string,
                                written: int, later: int)
    requires '\n' !in videoID && '\n' !in resolutionPath && '?' !in videoID && '?' !in resolutionPath
    requires forall l :: l in Split(content, '\n') ==> '?' !in l
    requires Numbers.Int64Min <= written + TTL(d) <= Numbers.Int64Max
    requires var body := VariantPlaylist.RewritePlaylist(d, md5, content, videoID, resolutionPath, written + TTL(d), secret);
      CachedPlaylist(d, Hit(Rebuilt(body, d, written)), later).Some?
    ensures var body := VariantPlaylist.RewritePlaylist(d, md5, content, videoID, resolutionPath, written + TTL(d), secret);
      var lines := Split(content, '\n');
      var out := Split(body, '\n');
      && |out| == |lines|
      && (forall i :: 0 <= i < |lines| && !VariantPlaylist.IsSegmentLine(d, lines[i]) ==> out[i] == lines[i])
      && (forall i :: 0 <= i < |lines| && VariantPlaylist.IsSegmentLine(d, lines[i]) ==>
            && VariantPlaylist.CheckSigned(md5, out[i], secret)
                 == Some((VariantPlaylist.PublicPath(videoID, resolutionPath, lines[i]), written + TTL(d)))
            && written + TTL(d) > later + RefreshThreshold)
  {
    var expires := written + TTL(d);
    var body := VariantPlaylist.RewritePlaylist(d, md5, content, videoID, resolutionPath, expires, secret);
    var lines := Split(content, '\n');
    FreshWindow(d, body, written, later);
    VariantPlaylist.RewriteByLine(d, md5, content, videoID, resolutionPath, expires, secret);
    forall i | 0 <= i < |lines| && VariantPlaylist.IsSegmentLine(d, lines[i])
      ensures VariantPlaylist.CheckSigned(md5, VariantPlaylist.SignedLine(md5, videoID, resolutionPath, lines[i], expires, secret), secret)
                == Some((VariantPlaylist.PublicPath(videoID, resolutionPath, lines[i]), expires))
    {
      assert lines[i] in lines;
      VariantPlaylist.SignedLineChecks(md5, videoID, resolutionPath, lines[i], expires, secret);
    }
  }

  /** End to end: the playlist the endpoint serves from its cache at
      `later`, after a rebuild at `now` stored it, has one line per stored
      line, and each segment line in it passes the signature check with an
      expiry more than 25 minutes beyond `later`. */
  lemma CachedPlaylistOutlives(d: Dialect, md5: seq<Bytes.byte> -> Signer.Digest, secret: string,
                               read: CacheRead<PlaylistRecord>, now: int, content: string,
                               videoID: string, resolutionPath: string,
                               later: int, fetchedLater: Option<string>)
    requires CachedPlaylist(d, read, now).None?
    requires now <= later < now + TTL(d) - RefreshThreshold
    requires '\n' !in videoID && '\n' !in resolutionPath && '?' !in videoID && '?' !in resolutionPath
    requires forall l :: l in Split(content, '\n') ==> '?' !in l
    requires Numbers.Int64Min <= now + TTL(d) <= Numbers.Int64Max
    ensures var o := ServePlaylist(d, md5, secret, read, now, Some(content), videoID, resolutionPath);
      o.write.Some? &&
      var served := ServePlaylist(d, md5, secret, Hit(o.write.value.value), later, fetchedLater, videoID, resolutionPath).response;
      var lines := Split(content, '\n');
      && served.Served?
      && |Split(served.body, '\n')| == |lines|
      && (forall i :: 0 <= i < |lines| && VariantPlaylist.IsSegmentLine(d, lines[i]) ==>
            VariantPlaylist.CheckSigned(md5, Split(served.body, '\n')[i], secret)
              == Some((VariantPlaylist.PublicPath(videoID, resolutionPath, lines[i]), now + TTL(d))))
      && now + TTL(d) > later + RefreshThreshold
  {
    PlaylistWriteThenRead(d, md5, secret, read, now, content, videoID, resolutionPath, later, fetchedLater);
    var body := VariantPlaylist.RewritePlaylist(d, md5, content, videoID, resolutionPath, now + TTL(d), secret);
    FreshWindow(d, body, now, later);
    ServedSignaturesOutlive(d, md5, secret, content, videoID, resolutionPath, now, later);
  }

  /** A master entry does not go stale: Go serves any decoded entry, Python
      any entry that holds a playlist. */
  function CachedMaster(d: Dialect, read: CacheRead<MasterRecord>): Option<string>
  {
    match read
    case Miss => None
    case Undecodable => None
    case Hit(e) =>
      match d
      case Go => Some(if e.playlist.Some? then e.playlist.value else "")
      case Python => e.playlist
  }

  /** The master rewrite of each server. */
  function MasterRewrite(d: Dialect, content: string, videoID: string): string
  {
    match d
    case Go => MasterPlaylist.GoMaster(content, videoID)
    case Python => MasterPlaylist.PyMaster(content, videoID)
  }

  /** The master-playlist endpoint; the entry is stored for TTL seconds. */
  function ServeMaster(d: Dialect, read: CacheRead<MasterRecord>, fetched: Option<string>,
                       videoID: string): (o: Outcome<string, MasterRecord>)
    ensures o.write.Some? <==> CachedMaster(d, read).None? && fetched.Some?
    ensures o.response.Failed? <==> CachedMaster(d, read).None? && fetched.None?
    ensures o.response.Failed? ==> o.response.code == 404
    ensures CachedMaster(d, read).Some? ==> o.response == Served(CachedMaster(d, read).value)
    ensures CachedMaster(d, read).None? && fetched.Some? ==> o.response == Served(MasterRewrite(d, fetched.value, videoID))
    ensures o.write.Some? ==>
      o.write.value == Write(MasterCacheKey(videoID), MasterRecord(Some(o.response.body)), TTL(d))
  {
    match CachedMaster(d, read)
    case Some(body) => Outcome(Served(body), None)
    case None =>
      match fetched
      case None => Outcome(Failed(404), None)
      case Some(content) =>
        var body := MasterRewrite(d, content, videoID);
        Outcome(Served(body), Some(Write(MasterCacheKey(videoID), MasterRecord(Some(body)), TTL(d))))
  }

  /** Reading back what a master rebuild stored serves the same body, and
      does not touch storage. */
  lemma MasterWriteThenRead(d: Dialect, read: CacheRead<MasterRecord>, content: string,
                            videoID: string, fetchedLater: Option<string>)
    requires CachedMaster(d, read).None?
    ensures var o := ServeMaster(d, read, Some(content), videoID);
      o.write.Some? &&
      ServeMaster(d, Hit(o.write.value.value), fetchedLater, videoID) == Outcome(o.response, None)
  {
  }

  /** The status endpoint. On a miss the reply is the aggregation of the
      listing; only a 200 reply is cached, for TTL seconds. */
  ghost function ServeStatus(d: Dialect, read: CacheRead<StatusBody>, uploadID: string,
                             listing: StatusAggregation.Listing): (o: Outcome<StatusBody, StatusBody>)
    ensures read.Hit? ==> o == Outcome(Served(read.entry), None)
    ensures !read.Hit? ==> (o.write.Some? <==> o.response.Served?)
    ensures !read.Hit? && o.response.Failed? ==>
      o.response.code == (if StatusAggregation.Aggregate(d, uploadID, listing).NotFound? then 404 else 500)
  {
    match read
    case Hit(e) => Outcome(Served(e), None)
    case _ =>
      match StatusAggregation.Aggregate(d, uploadID, listing)
      case ListingFailed => Outcome(Failed(500), None)
      case NotFound => Outcome(Failed(404), None)
      case ConversionFailed => Outcome(Failed(500), None)
      case Reply(id, status, resolutions) =>
        var body := StatusBody(id, status, resolutions);
        Outcome(Served(body), Some(Write(StatusKey(uploadID), body, TTL(d))))
  }

  /** A cache miss answers with the aggregated reply and stores it under the
      upload's key; a failure is never stored, so the next request lists
      storage again. */
  lemma StatusMiss(d: Dialect, read: CacheRead<StatusBody>, uploadID: string, listing: StatusAggregation.Listing)
    requires !read.Hit?
    ensures var o := ServeStatus(d, read, uploadID, listing);
      var r := StatusAggregation.Aggregate(d, uploadID, listing);
      && (r.Reply? <==> o.response.Served?)
      && (r.Reply? ==> o.response.body == StatusBody(uploadID, r.status, r.resolutions)
                       && o.write == Some(Write(StatusKey(uploadID), o.response.body, TTL(d))))
      && (!r.Reply? ==> o.write.None?)
  {
    StatusAggregation.AggregateMeaning(d, uploadID, listing);
  }

  /** A stored status is served unchanged for as long as Redis keeps it, even
      after the job moves on: a cached "processing" is not re-examined. */
  lemma StatusWriteThenRead(d: Dialect, read: CacheRead<StatusBody>, uploadID: string,
                            listing: StatusAggregation.Listing, laterListing: StatusAggregation.Listing)
    requires !read.Hit?
    requires ServeStatus(d, read, uploadID, listing).write.Some?
    ensures var o := ServeStatus(d, read, uploadID, listing);
      ServeStatus(d, Hit(o.write.value.value), uploadID, laterListing) == Outcome(o.response, None)
  {
  }

  /** The three key families never collide, so no endpoint reads another's
      entry. */
  lemma KeyFamiliesDisjoint(videoID: string, resolutionPath: string, v2: string, uploadID: string)
    ensures PlaylistKey(videoID, resolutionPath) != MasterCacheKey(v2)
    ensures PlaylistKey(videoID, resolutionPath) != StatusKey(uploadID)
    ensures MasterCacheKey(v2) != StatusKey(uploadID)
  {
    assert PlaylistKey(videoID, resolutionPath)[0] == 'p';
    assert MasterCacheKey(v2)[0] == 'm';
    assert StatusKey(uploadID)[0] == 'u';
  }
}
