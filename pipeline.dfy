/** How the pieces fit together: what the status endpoints report while and
    after the worker runs, how both servers read the master playlist the
    worker writes, how an issued upload reaches the worker, and how the
    status the worker publishes ends a status stream. */
module Pipeline {
  import opened Wrappers
  import opened Text
  import opened Numbers
  import opened Sorting
  import opened Dialects
  import opened Worker
  import SA = StatusAggregation
  import StatusStream
  import MasterPlaylist
  import Upload
  import Bytes

  // ---------------------------------------------------------------------
  // The status endpoints over what a run leaves in the streaming bucket

  /** A variant playlist's name below the job's folder. */
  function PlaylistKey(res: int): string
  {
    ResDir(res) + "/" + SA.PlaylistName
  }

  /** What ffmpeg's HLS muxer writes into a variant folder: the variant
      playlist and `.ts` segments. */
  predicate HlsFile(rel: string)
  {
    rel == SA.PlaylistName || HasSuffix(rel, ".ts")
  }

  predicate HlsFolders(folders: seq<Folder>)
  {
    forall j, i :: 0 <= j < |folders| && 0 <= i < |folders[j].files| ==> HlsFile(folders[j].files[i].rel)
  }

  /** Whether some file is the variant playlist. */
  predicate HasPlaylist(files: seq<OutputFile>)
  {
    files != [] && (files[|files| - 1].rel == SA.PlaylistName || HasPlaylist(files[..|files| - 1]))
  }

  /** Whether a folder's playlist was uploaded before anything raised. */
  predicate PlaylistUploaded(f: Folder)
  {
    HasPlaylist(Uploaded(f))
  }

  /** For each folder, whether its playlist was uploaded. */
  function Present(folders: seq<Folder>): (present: seq<bool>)
    ensures |present| == |folders|
    ensures forall j :: 0 <= j < |folders| ==> present[j] == PlaylistUploaded(folders[j])
  {
    seq(|folders|, j requires 0 <= j < |folders| => PlaylistUploaded(folders[j]))
  }

  /** The variants whose playlist is present, in variant order. */
  function Listed(variants: seq<int>, present: seq<bool>): seq<int>
    requires |variants| == |present|
  {
    if variants == [] then []
    else
      var n := |variants| - 1;
      Listed(variants[..n], present[..n]) + (if present[n] then [variants[n]] else [])
  }

  predicate Distinct(s: seq<int>)
  {
    forall i, j :: 0 <= i < j < |s| ==> s[i] != s[j]
  }

  predicate InInt64(s: seq<int>)
  {
    forall i :: 0 <= i < |s| ==> Int64Min <= s[i] <= Int64Max
  }

  /** A listed resolution is a variant whose playlist is present ... */
  lemma {:induction false} ListedOrigin(variants: seq<int>, present: seq<bool>, v: int) returns (j: int)
    requires |variants| == |present| && v in Listed(variants, present)
    ensures 0 <= j < |variants| && variants[j] == v && present[j]
    decreases |variants|
  {
    var n := |variants| - 1;
    if v in Listed(variants[..n], present[..n]) {
      j := ListedOrigin(variants[..n], present[..n], v);
      assert variants[..n][j] == variants[j] && present[..n][j] == present[j];
    } else {
      j := n;
    }
  }

  /** ... and every such variant is listed. */
  lemma {:induction false} ListedHas(variants: seq<int>, present: seq<bool>, j: int)
    requires |variants| == |present| && 0 <= j < |variants| && present[j]
    ensures variants[j] in Listed(variants, present)
    decreases |variants|
  {
    var n := |variants| - 1;
    if j < n {
      assert variants[..n][j] == variants[j] && present[..n][j] == present[j];
      ListedHas(variants[..n], present[..n], j);
    }
  }

  /** Distinct variants give distinct listed resolutions. */
  lemma {:induction false} ListedDistinct(variants: seq<int>, present: seq<bool>)
    requires |variants| == |present| && Distinct(variants)
    ensures Distinct(Listed(variants, present))
    decreases |variants|
  {
    if variants != [] {
      var n := |variants| - 1;
      ListedDistinct(variants[..n], present[..n]);
      if present[n] {
        var init := Listed(variants[..n], present[..n]);
        forall i | 0 <= i < |init| ensures init[i] != variants[n] {
          var j := ListedOrigin(variants[..n], present[..n], init[i]);
          assert variants[..n][j] == variants[j];
        }
      }
    }
  }

  /** With every playlist present, every variant is listed. */
  lemma {:induction false} ListedAll(variants: seq<int>, present: seq<bool>)
    requires |variants| == |present|
    requires forall j :: 0 <= j < |present| ==> present[j]
    ensures Listed(variants, present) == variants
    decreases |variants|
  {
    if variants != [] {
      var n := |variants| - 1;
      ListedAll(variants[..n], present[..n]);
      assert variants == variants[..n] + [variants[n]];
    }
  }

  /** Each object of a folder is the segment key of one of its files ... */
  lemma {:induction false} FolderObjectOrigin(uploadID: string, res: int, files: seq<OutputFile>, k: string)
    returns (i: int)
    requires k in FolderObjects(uploadID, res, files)
    ensures 0 <= i < |files| && k == SegmentKey(uploadID, res, files[i].rel)
    decreases |files|
  {
    var n := |files| - 1;
    if k == SegmentKey(uploadID, res, files[n].rel) {
      i := n;
    } else {
      i := FolderObjectOrigin(uploadID, res, files[..n], k);
      assert files[..n][i] == files[i];
    }
  }

  /** ... and each file's segment key is an object of the folder. */
  lemma {:induction false} FolderObjectStored(uploadID: string, res: int, files: seq<OutputFile>, i: nat)
    requires i < |files|
    ensures SegmentKey(uploadID, res, files[i].rel) in FolderObjects(uploadID, res, files)
    decreases |files|
  {
    var n := |files| - 1;
    if i < n {
      FolderObjectStored(uploadID, res, files[..n], i);
      assert files[..n][i] == files[i];
    }
  }

  /** A segment stored by a run: file i of variant j's folder. */
  predicate StoredAt(uploadID: string, variants: seq<int>, folders: seq<Folder>, k: string, j: int, i: int)
    requires |variants| == |folders|
  {
    0 <= j < |variants| && 0 <= i < |Uploaded(folders[j])|
    && k == SegmentKey(uploadID, variants[j], Uploaded(folders[j])[i].rel)
  }

  /** Each segment object of a run is an uploaded file of some folder ... */
  lemma {:induction false} SegmentObjectOrigin(uploadID: string, variants: seq<int>, folders: seq<Folder>, k: string)
    returns (j: int, i: int)
    requires |variants| == |folders|
    requires k in SegmentObjects(uploadID, variants, folders)
    ensures StoredAt(uploadID, variants, folders, k, j, i)
    decreases |variants|
  {
    var n := |variants| - 1;
    var vs, fs := variants[..n], folders[..n];
    var last := FolderObjects(uploadID, variants[n], Uploaded(folders[n]));
    if k in last {
      j := n;
      i := FolderObjectOrigin(uploadID, variants[n], Uploaded(folders[n]), k);
    } else {
      j, i := SegmentObjectOrigin(uploadID, vs, fs, k);
      assert vs[j] == variants[j] && fs[j] == folders[j];
    }
  }

  /** ... and every uploaded file of every folder is a segment object. */
  lemma {:induction false} SegmentObjectStored(uploadID: string, variants: seq<int>, folders: seq<Folder>,
                                               j: int, i: int)
    requires |variants| == |folders|
    requires 0 <= j < |variants| && 0 <= i < |Uploaded(folders[j])|
    ensures SegmentKey(uploadID, variants[j], Uploaded(folders[j])[i].rel) in SegmentObjects(uploadID, variants, folders)
    decreases |variants|
  {
    var n := |variants| - 1;
    var vs, fs := variants[..n], folders[..n];
    var k := SegmentKey(uploadID, variants[j], Uploaded(folders[j])[i].rel);
    SegmentObjectsSnoc(uploadID, variants, folders);
    if j < n {
      assert vs[j] == variants[j] && fs[j] == folders[j];
      SegmentObjectStored(uploadID, vs, fs, j, i);
      MapUnionLeft(SegmentObjects(uploadID, vs, fs), FolderObjects(uploadID, variants[n], Uploaded(folders[n])), k);
    } else {
      assert j == n;
      FolderObjectStored(uploadID, variants[n], Uploaded(folders[n]), i);
      MapUnionRight(SegmentObjects(uploadID, vs, fs), FolderObjects(uploadID, variants[n], Uploaded(folders[n])), k);
    }
  }

  lemma SegmentObjectsSnoc(uploadID: string, variants: seq<int>, folders: seq<Folder>)
    requires |variants| == |folders| && |variants| > 0
    ensures var n := |variants| - 1;
      SegmentObjects(uploadID, variants, folders)
        == SegmentObjects(uploadID, variants[..n], folders[..n]) + FolderObjects(uploadID, variants[n], Uploaded(folders[n]))
  {
  }

  lemma MapUnionRight(a: map<string, string>, b: map<string, string>, k: string)
    requires k in b
    ensures k in a + b
  {
  }

  lemma MapUnionLeft(a: map<string, string>, b: map<string, string>, k: string)
    requires k in a
    ensures k in a + b
  {
  }

  /** The name of a stored object below the job's folder. */
  predicate StoredRel(variants: seq<int>, folders: seq<Folder>, r: string)
    requires |variants| == |folders|
  {
    exists j, i :: 0 <= j < |variants| && 0 <= i < |Uploaded(folders[j])|
      && r == ResDir(variants[j]) + "/" + Uploaded(folders[j])[i].rel
  }

  lemma SegmentKeySplit(uploadID: string, res: int, rel: string)
    ensures SegmentKey(uploadID, res, rel) == SA.Prefix(uploadID) + (ResDir(res) + "/" + rel)
  {
  }

  lemma MasterKeySplit(uploadID: string)
    ensures MasterObjectKey(uploadID) == SA.Prefix(uploadID) + SA.MasterKey
  {
  }

  lemma TrimOwnPrefix(p: string, r: string)
    ensures TrimPrefix(p + r, p) == r
  {
    assert p <= p + r;
    assert (p + r)[|p|..] == r;
  }

  /** The key set the endpoints build from a listing of a run's objects:
      `master.m3u8` once the master is uploaded, and the names of the
      stored segments unless the run failed before uploading any. */
  lemma {:induction false} RunKeys(uploadID: string, variants: seq<int>, table: Table, folders: seq<Folder>,
                                   failAt: Option<Step>, listing: seq<string>, k: string)
    requires |folders| == |variants| && Covers(variants, table)
    requires forall o :: o in listing <==> o in Written(uploadID, variants, table, folders, failAt)
    ensures k in SA.KeySet(listing, SA.Prefix(uploadID)) <==>
      (k == SA.MasterKey && !MasterMissing(failAt)) || (!FailsEarly(failAt) && StoredRel(variants, folders, k))
  {
    var p := SA.Prefix(uploadID);
    var w := Written(uploadID, variants, table, folders, failAt);
    MasterKeySplit(uploadID);
    TrimOwnPrefix(p, SA.MasterKey);
    if k in SA.KeySet(listing, p) {
      var o :| o in listing && TrimPrefix(o, p) == k;
      if o != MasterObjectKey(uploadID) || MasterMissing(failAt) {
        assert !FailsEarly(failAt) && o in SegmentObjects(uploadID, variants, folders);
        var j, i := SegmentObjectOrigin(uploadID, variants, folders, o);
        var r := ResDir(variants[j]) + "/" + Uploaded(folders[j])[i].rel;
        SegmentKeySplit(uploadID, variants[j], Uploaded(folders[j])[i].rel);
        TrimOwnPrefix(p, r);
        assert k == r;
      }
    }
    if k == SA.MasterKey && !MasterMissing(failAt) {
      assert MasterObjectKey(uploadID) in w;
    }
    if !FailsEarly(failAt) && StoredRel(variants, folders, k) {
      var j, i :| 0 <= j < |variants| && 0 <= i < |Uploaded(folders[j])|
        && k == ResDir(variants[j]) + "/" + Uploaded(folders[j])[i].rel;
      var o := SegmentKey(uploadID, variants[j], Uploaded(folders[j])[i].rel);
      SegmentObjectStored(uploadID, variants, folders, j, i);
      assert o in w;
      SegmentKeySplit(uploadID, variants[j], Uploaded(folders[j])[i].rel);
      TrimOwnPrefix(p, k);
    }
  }

  /** The playlist's position in a folder that has one ... */
  lemma {:induction false} PlaylistIndex(files: seq<OutputFile>) returns (i: int)
    requires HasPlaylist(files)
    ensures 0 <= i < |files| && files[i].rel == SA.PlaylistName
    decreases |files|
  {
    var n := |files| - 1;
    if files[n].rel == SA.PlaylistName {
      i := n;
    } else {
      i := PlaylistIndex(files[..n]);
      assert files[..n][i] == files[i];
    }
  }

  /** ... and a folder with the playlist at some position has one. */
  lemma {:induction false} PlaylistAt(files: seq<OutputFile>, i: int)
    requires 0 <= i < |files| && files[i].rel == SA.PlaylistName
    ensures HasPlaylist(files)
    decreases |files|
  {
    var n := |files| - 1;
    if i < n {
      assert files[..n][i] == files[i];
      PlaylistAt(files[..n], i);
    }
  }

  /** The first '/'-piece of a stored name is the variant's folder. */
  lemma FolderPiece(res: int, rel: string)
    ensures FirstPiece(ResDir(res) + "/" + rel, '/') == ResDir(res)
  {
    var dir := ResDir(res);
    assert '/' !in dir;
    IndexOfAfterPrefix(dir, '/', rel);
    assert (dir + "/" + rel)[..|dir|] == dir;
  }

  /** Both endpoints read a variant playlist's name back as its
      resolution. */
  lemma PlaylistKeyGain(d: Dialect, v: int)
    requires Int64Min <= v <= Int64Max
    ensures SA.Contribution(d, PlaylistKey(v)) == SA.Add(v)
  {
    var dir := ResDir(v);
    var k := PlaylistKey(v);
    assert k[|k| - |SA.PlaylistName|..] == SA.PlaylistName;
    assert k[|dir|] == '/';
    FolderPiece(v, SA.PlaylistName);
    assert dir[|dir| - 1..] == "p";
    assert dir[..|dir| - 1] == Decimal(v);
    match d
    case Go => GoAtoiDecimal(v);
    case Python => PyIntDecimal(v);
  }

  /** A segment's name does not end in playlist.m3u8, so it adds nothing. */
  lemma SegmentSkipped(d: Dialect, res: int, rel: string)
    requires HasSuffix(rel, ".ts")
    ensures SA.Contribution(d, ResDir(res) + "/" + rel) == SA.Skip
  {
    var k := ResDir(res) + "/" + rel;
    assert k[|k| - 1] == rel[|rel| - 1] == 's';
  }

  lemma MasterSkipped(d: Dialect)
    ensures SA.Contribution(d, SA.MasterKey) == SA.Skip
  {
  }

  lemma PlaylistKeyInjective(a: int, b: int)
    requires PlaylistKey(a) == PlaylistKey(b)
    ensures a == b
  {
    var ka, kb := PlaylistKey(a), PlaylistKey(b);
    assert |Decimal(a)| == |Decimal(b)|;
    assert ka[..|Decimal(a)|] == Decimal(a);
    assert kb[..|Decimal(b)|] == Decimal(b);
    DecimalInjective(a, b);
  }

  function KeysOf(adds: seq<int>, key: int -> string): set<string>
  {
    set v | v in adds :: key(v)
  }

  /** Keys that all add nothing gather nothing. */
  lemma {:induction false} GatheredSkips(gain: string -> SA.Gain, keys: set<string>)
    requires forall k :: k in keys ==> gain(k) == SA.Skip
    ensures SA.GatheredBy(gain, keys) == []
    decreases |keys|
  {
    if keys != {} {
      GatheredSkips(gain, keys - {SA.Pick(keys)});
    }
  }

  /** Keys that hold, for each resolution of `adds`, one distinct name
      adding that resolution, and otherwise add nothing, gather exactly
      `adds`, in some order. */
  lemma {:induction false} GatheredAdds(gain: string -> SA.Gain, keys: set<string>, adds: seq<int>, key: int -> string)
    requires forall i, j :: 0 <= i < j < |adds| ==> key(adds[i]) != key(adds[j])
    requires forall i :: 0 <= i < |adds| ==> key(adds[i]) in keys && gain(key(adds[i])) == SA.Add(adds[i])
    requires forall k :: k in keys ==> gain(k) == SA.Skip || k in KeysOf(adds, key)
    ensures multiset(SA.GatheredBy(gain, keys)) == multiset(adds)
    decreases |adds|
  {
    if adds == [] {
      GatheredSkips(gain, keys);
    } else {
      var n := |adds| - 1;
      var init := adds[..n];
      assert adds == init + [adds[n]];
      var pk := key(adds[n]);
      AddsOfInit(gain, keys, adds, key);
      GatheredAdds(gain, keys - {pk}, init, key);
      SA.GatheredRemove(gain, keys, pk);
    }
  }

  /** The step of GatheredAdds: removing the last resolution's key leaves
      keys that meet its requirements for the other resolutions. */
  lemma AddsOfInit(gain: string -> SA.Gain, keys: set<string>, adds: seq<int>, key: int -> string)
    requires adds != []
    requires forall i, j :: 0 <= i < j < |adds| ==> key(adds[i]) != key(adds[j])
    requires forall i :: 0 <= i < |adds| ==> key(adds[i]) in keys && gain(key(adds[i])) == SA.Add(adds[i])
    requires forall k :: k in keys ==> gain(k) == SA.Skip || k in KeysOf(adds, key)
    ensures var init, pk := adds[..|adds| - 1], key(adds[|adds| - 1]);
      && (forall i :: 0 <= i < |init| ==> key(init[i]) in keys - {pk} && gain(key(init[i])) == SA.Add(init[i]))
      && (forall k :: k in keys - {pk} ==> gain(k) == SA.Skip || k in KeysOf(init, key))
  {
    var n := |adds| - 1;
    var init, pk := adds[..n], key(adds[n]);
    forall k | k in keys - {pk} && k in KeysOf(adds, key)
      ensures k in KeysOf(init, key)
    {
      var v :| v in adds && k == key(v);
      var i :| 0 <= i < |adds| && adds[i] == v;
      assert init[i] == v;
    }
  }

  /** The status the endpoints report from a listing of what a run stored:
      not found or `processing` with no resolutions until the master is
      uploaded, and from then on `ready` with the resolutions, ascending,
      of exactly the variants whose playlist was uploaded. */
  lemma StatusAfterRun(d: Dialect, uploadID: string, variants: seq<int>, table: Table, folders: seq<Folder>,
                       failAt: Option<Step>, listing: seq<string>)
    requires |folders| == |variants| && Covers(variants, table)
    requires Distinct(variants) && InInt64(variants) && HlsFolders(folders)
    requires forall o :: o in listing <==> o in Written(uploadID, variants, table, folders, failAt)
    ensures var r := SA.Aggregate(d, uploadID, SA.Objects(listing));
      && (MasterMissing(failAt) ==> r == SA.NotFound || r == SA.Reply(uploadID, "processing", []))
      && (!MasterMissing(failAt) ==> r == SA.Reply(uploadID, "ready", Sort(Listed(variants, Present(folders)))))
  {
    if MasterMissing(failAt) {
      StatusWhileMissing(d, uploadID, variants, table, folders, failAt, listing);
    } else {
      StatusWhenReady(d, uploadID, variants, table, folders, failAt, listing);
    }
  }

  /** Without the master, a listing of the run is not found or processing. */
  lemma StatusWhileMissing(d: Dialect, uploadID: string, variants: seq<int>, table: Table, folders: seq<Folder>,
                           failAt: Option<Step>, listing: seq<string>)
    requires |folders| == |variants| && Covers(variants, table) && MasterMissing(failAt)
    requires forall o :: o in listing <==> o in Written(uploadID, variants, table, folders, failAt)
    ensures var r := SA.Aggregate(d, uploadID, SA.Objects(listing));
      r == SA.NotFound || r == SA.Reply(uploadID, "processing", [])
  {
    MasterNotStored(variants, folders);
    RunKeys(uploadID, variants, table, folders, failAt, listing, SA.MasterKey);
    assert SA.MasterKey !in SA.KeySet(listing, SA.Prefix(uploadID));
  }

  /** No stored segment or playlist is named like the master: their names
      lie in a resolution's folder. */
  lemma MasterNotStored(variants: seq<int>, folders: seq<Folder>)
    requires |folders| == |variants|
    ensures !StoredRel(variants, folders, SA.MasterKey)
  {
    assert '/' !in SA.MasterKey;
    forall j, i | 0 <= j < |variants| && 0 <= i < |Uploaded(folders[j])|
      ensures SA.MasterKey != ResDir(variants[j]) + "/" + Uploaded(folders[j])[i].rel
    {
      SlashInside(ResDir(variants[j]), Uploaded(folders[j])[i].rel);
    }
  }

  lemma SlashInside(dir: string, rel: string)
    ensures '/' in dir + "/" + rel
  {
    assert (dir + "/" + rel)[|dir|] == '/';
  }

  /** The key set of a run's listing, as RunKeys describes it. */
  ghost predicate KeysOfRun(keys: set<string>, variants: seq<int>, folders: seq<Folder>, failAt: Option<Step>)
    requires |folders| == |variants|
  {
    forall k :: k in keys <==>
      (k == SA.MasterKey && !MasterMissing(failAt)) || (!FailsEarly(failAt) && StoredRel(variants, folders, k))
  }

  lemma RunKeySet(uploadID: string, variants: seq<int>, table: Table, folders: seq<Folder>,
                  failAt: Option<Step>, listing: seq<string>)
    requires |folders| == |variants| && Covers(variants, table)
    requires forall o :: o in listing <==> o in Written(uploadID, variants, table, folders, failAt)
    ensures KeysOfRun(SA.KeySet(listing, SA.Prefix(uploadID)), variants, folders, failAt)
  {
    forall k {
      RunKeys(uploadID, variants, table, folders, failAt, listing, k);
    }
  }

  /** With the master, a listing of the run is ready with the sorted
      resolutions whose playlist was uploaded. */
  lemma StatusWhenReady(d: Dialect, uploadID: string, variants: seq<int>, table: Table, folders: seq<Folder>,
                        failAt: Option<Step>, listing: seq<string>)
    requires |folders| == |variants| && Covers(variants, table) && !MasterMissing(failAt)
    requires Distinct(variants) && InInt64(variants) && HlsFolders(folders)
    requires forall o :: o in listing <==> o in Written(uploadID, variants, table, folders, failAt)
    ensures SA.Aggregate(d, uploadID, SA.Objects(listing)) == SA.Reply(uploadID, "ready", Sort(Listed(variants, Present(folders))))
  {
    var keys := SA.KeySet(listing, SA.Prefix(uploadID));
    RunKeySet(uploadID, variants, table, folders, failAt, listing);
    assert SA.MasterKey in keys;
    ReadyKeys(d, keys, variants, folders, failAt);
    SortPermutation(SA.Gathered(d, keys), Listed(variants, Present(folders)));
  }

  // ---------------------------------------------------------------------
  // One listing page

  /** The most keys one ListObjectsV2 / list_objects_v2 call returns. */
  const PageSize := 1000

  /** The order a listing returns keys in: ascending by character, which
      for UTF-8 keys is their byte order. */
  predicate KeyLess(a: string, b: string)
    decreases |a|
  {
    b != [] && (a == [] || a[0] < b[0] || (a[0] == b[0] && KeyLess(a[1..], b[1..])))
  }

  predicate Ascending(listing: seq<string>)
  {
    forall i, j :: 0 <= i < j < |listing| ==> KeyLess(listing[i], listing[j])
  }

  /** The keys one listing call returns, where `listing` is every key under
      the prefix. */
  function FirstPage(listing: seq<string>): seq<string>
  {
    if |listing| <= PageSize then listing else listing[..PageSize]
  }

  lemma {:induction false} KeyLessIrreflexive(a: string)
    ensures !KeyLess(a, a)
    decreases |a|
  {
    if a != [] {
      KeyLessIrreflexive(a[1..]);
    }
  }

  lemma {:induction false} KeyLessAsymmetric(a: string, b: string)
    requires KeyLess(a, b)
    ensures !KeyLess(b, a)
    decreases |a|
  {
    if a != [] && a[0] == b[0] && KeyLess(a[1..], b[1..]) {
      KeyLessAsymmetric(a[1..], b[1..]);
    }
  }

  /** Keys under one prefix are ordered by what follows it. */
  lemma {:induction false} KeyLessAfterPrefix(p: string, x: string, y: string)
    requires x != [] && y != [] && x[0] < y[0]
    ensures KeyLess(p + x, p + y)
    decreases |p|
  {
    if p == [] {
      assert p + x == x && p + y == y;
    } else {
      KeyLessAfterPrefix(p[1..], x, y);
      assert (p + x)[1..] == p[1..] + x && (p + y)[1..] == p[1..] + y;
    }
  }

  /** Every segment of a run lists before its master: a resolution folder
      starts with a digit or `-`, and both sort before `m`. */
  lemma SegmentBeforeMaster(uploadID: string, res: int, rel: string)
    ensures KeyLess(SegmentKey(uploadID, res, rel), MasterObjectKey(uploadID))
  {
    var x := ResDir(res) + "/" + rel;
    SegmentKeySplit(uploadID, res, rel);
    MasterKeySplit(uploadID);
    assert x[0] == Decimal(res)[0];
    assert x[0] <= '9' < 'm' == SA.MasterKey[0];
    KeyLessAfterPrefix(SA.Prefix(uploadID), x, SA.MasterKey);
  }

  /** A sequence holds at most as many distinct keys as it has entries. */
  lemma {:induction false} DistinctAtMostLength(s: seq<string>)
    ensures |(set o | o in s)| <= |s|
    decreases |s|
  {
    if s != [] {
      var n := |s| - 1;
      DistinctAtMostLength(s[..n]);
      assert (set o | o in s) == (set o | o in s[..n]) + {s[n]};
    }
  }

  /** In an ascending listing, keys that sort before the one at `m` all sit
      before position `m`. */
  lemma KeysBefore(listing: seq<string>, m: int, smaller: set<string>)
    requires Ascending(listing) && 0 <= m < |listing|
    requires forall o :: o in smaller ==> o in listing && KeyLess(o, listing[m])
    ensures |smaller| <= m
  {
    forall o | o in smaller
      ensures o in listing[..m]
    {
      var k :| 0 <= k < |listing| && listing[k] == o;
      if k == m {
        KeyLessIrreflexive(o);
      } else if k > m {
        KeyLessAsymmetric(o, listing[m]);
      }
      assert listing[..m][k] == o;
    }
    SubsetAtMost(smaller, set o | o in listing[..m]);
    DistinctAtMostLength(listing[..m]);
  }

  lemma {:induction false} SubsetAtMost(a: set<string>, b: set<string>)
    requires a <= b
    ensures |a| <= |b|
    decreases |a|
  {
    if a != {} {
      var x :| x in a;
      SubsetAtMost(a - {x}, b - {x});
    }
  }

  /** A key with a full page of smaller keys in the listing is not on the
      first page. */
  lemma PageMisses(listing: seq<string>, key: string, smaller: set<string>)
    requires Ascending(listing) && |smaller| >= PageSize
    requires forall o :: o in smaller ==> o in listing && KeyLess(o, key)
    ensures key !in FirstPage(listing)
    ensures |FirstPage(listing)| == PageSize
  {
    SubsetAtMost(smaller, set o | o in listing);
    DistinctAtMostLength(listing);
    var page := listing[..PageSize];
    assert FirstPage(listing) == page;
    if key in page {
      var m :| 0 <= m < |page| && page[m] == key;
      assert listing[m] == key;
      KeysBefore(listing, m, smaller);
    }
  }

  /** The segment objects of a run all list before its master. */
  lemma SegmentsListBefore(uploadID: string, variants: seq<int>, table: Table, folders: seq<Folder>,
                           failAt: Option<Step>, listing: seq<string>)
    requires |folders| == |variants| && Covers(variants, table) && !FailsEarly(failAt)
    requires forall o :: o in listing <==> o in Written(uploadID, variants, table, folders, failAt)
    ensures forall o :: o in SegmentObjects(uploadID, variants, folders).Keys ==>
      o in listing && KeyLess(o, MasterObjectKey(uploadID))
  {
    var segments := SegmentObjects(uploadID, variants, folders);
    forall o | o in segments.Keys
      ensures o in listing && KeyLess(o, MasterObjectKey(uploadID))
    {
      var j, i := SegmentObjectOrigin(uploadID, variants, folders, o);
      SegmentBeforeMaster(uploadID, variants[j], Uploaded(folders[j])[i].rel);
      assert o in Written(uploadID, variants, table, folders, failAt);
    }
  }

  /** A segment object's name below the job's folder is not `master.m3u8`. */
  lemma SegmentNotMaster(uploadID: string, variants: seq<int>, folders: seq<Folder>, o: string)
    requires |folders| == |variants| && o in SegmentObjects(uploadID, variants, folders)
    ensures TrimPrefix(o, SA.Prefix(uploadID)) != SA.MasterKey
  {
    var j, i := SegmentObjectOrigin(uploadID, variants, folders, o);
    var dir, rel := ResDir(variants[j]), Uploaded(folders[j])[i].rel;
    SegmentKeySplit(uploadID, variants[j], rel);
    TrimOwnPrefix(SA.Prefix(uploadID), dir + "/" + rel);
    RelNotMaster(dir, rel);
  }

  lemma RelNotMaster(dir: string, rel: string)
    ensures dir + "/" + rel != SA.MasterKey
  {
    SlashInside(dir, rel);
    assert '/' !in SA.MasterKey;
  }

  /** Every stored object other than the master is a segment object. */
  lemma WrittenBesideMaster(uploadID: string, variants: seq<int>, table: Table, folders: seq<Folder>,
                            failAt: Option<Step>, o: string)
    requires |folders| == |variants| && Covers(variants, table)
    requires o in Written(uploadID, variants, table, folders, failAt) && o != MasterObjectKey(uploadID)
    ensures o in SegmentObjects(uploadID, variants, folders)
  {
  }

  /** Without the master object, no listed object of a run is named
      `master.m3u8` below the job's folder. */
  lemma OnlySegmentsBesideMaster(uploadID: string, variants: seq<int>, table: Table, folders: seq<Folder>,
                                 failAt: Option<Step>, listing: seq<string>, page: seq<string>)
    requires |folders| == |variants| && Covers(variants, table)
    requires forall o :: o in listing <==> o in Written(uploadID, variants, table, folders, failAt)
    requires forall o :: o in page ==> o in listing
    requires MasterObjectKey(uploadID) !in page
    ensures SA.MasterKey !in SA.KeySet(page, SA.Prefix(uploadID))
  {
    forall o | o in page
      ensures TrimPrefix(o, SA.Prefix(uploadID)) != SA.MasterKey
    {
      WrittenBesideMaster(uploadID, variants, table, folders, failAt, o);
      SegmentNotMaster(uploadID, variants, folders, o);
    }
  }

  /** As written, both servers read one page of a run's objects. When the
      run stored a page's worth of segments and playlists, that page ends
      before `master.m3u8`, so the endpoint reports `processing` with no
      resolutions however the run ended. */
  lemma FirstPageOfLongRun(d: Dialect, uploadID: string, variants: seq<int>, table: Table, folders: seq<Folder>,
                           failAt: Option<Step>, listing: seq<string>)
    requires |folders| == |variants| && Covers(variants, table) && !FailsEarly(failAt)
    requires forall o :: o in listing <==> o in Written(uploadID, variants, table, folders, failAt)
    requires Ascending(listing) && |SegmentObjects(uploadID, variants, folders).Keys| >= PageSize
    ensures MasterObjectKey(uploadID) !in FirstPage(listing)
    ensures SA.Aggregate(d, uploadID, SA.Objects(FirstPage(listing))) == SA.Reply(uploadID, "processing", [])
  {
    SegmentsListBefore(uploadID, variants, table, folders, failAt, listing);
    PageMisses(listing, MasterObjectKey(uploadID), SegmentObjects(uploadID, variants, folders).Keys);
    OnlySegmentsBesideMaster(uploadID, variants, table, folders, failAt, listing, FirstPage(listing));
  }

  /** The keys of a finished run gather the listed resolutions, and none
      raises. */
  lemma ReadyKeys(d: Dialect, keys: set<string>, variants: seq<int>, folders: seq<Folder>, failAt: Option<Step>)
    requires |folders| == |variants| && !MasterMissing(failAt)
    requires Distinct(variants) && InInt64(variants) && HlsFolders(folders)
    requires KeysOfRun(keys, variants, folders, failAt)
    ensures var adds := Listed(variants, Present(folders));
      multiset(SA.Gathered(d, keys)) == multiset(adds) && !SA.AnyRaise(d, keys)
  {
    var adds := Listed(variants, Present(folders));
    var gain, key := SA.Gains(d), PlaylistKey;
    ListedDistinct(variants, Present(folders));
    forall i | 0 <= i < |adds|
      ensures key(adds[i]) in keys && gain(key(adds[i])) == SA.Add(adds[i])
    {
      ListedFound(d, keys, variants, folders, failAt, adds[i]);
    }
    forall k | k in keys
      ensures gain(k) == SA.Skip || k in KeysOf(adds, key)
    {
      StoredKeyGain(d, keys, variants, folders, failAt, k);
    }
    forall k | k in keys ensures !SA.Contribution(d, k).Raise? {
      if k in KeysOf(adds, key) && gain(k) != SA.Skip {
        var v :| v in adds && k == key(v);
        var i :| 0 <= i < |adds| && adds[i] == v;
      }
    }
    forall i, j | 0 <= i < j < |adds| ensures key(adds[i]) != key(adds[j]) {
      if key(adds[i]) == key(adds[j]) {
        PlaylistKeyInjective(adds[i], adds[j]);
      }
    }
    GatheredAdds(gain, keys, adds, key);
  }

  /** A listed resolution's playlist name is among the keys. */
  lemma ListedFound(d: Dialect, keys: set<string>, variants: seq<int>, folders: seq<Folder>,
                    failAt: Option<Step>, v: int)
    requires |folders| == |variants| && InInt64(variants) && !MasterMissing(failAt)
    requires KeysOfRun(keys, variants, folders, failAt)
    requires v in Listed(variants, Present(folders))
    ensures PlaylistKey(v) in keys
    ensures SA.Contribution(d, PlaylistKey(v)) == SA.Add(v)
  {
    var j := ListedOrigin(variants, Present(folders), v);
    var i := PlaylistIndex(Uploaded(folders[j]));
    assert StoredRel(variants, folders, PlaylistKey(v)) by {
      assert PlaylistKey(v) == ResDir(variants[j]) + "/" + Uploaded(folders[j])[i].rel;
    }
    PlaylistKeyGain(d, v);
  }

  /** Every other key adds nothing. */
  lemma StoredKeyGain(d: Dialect, keys: set<string>, variants: seq<int>, folders: seq<Folder>,
                      failAt: Option<Step>, k: string)
    requires |folders| == |variants| && HlsFolders(folders)
    requires KeysOfRun(keys, variants, folders, failAt)
    requires k in keys
    ensures SA.Contribution(d, k) == SA.Skip || k in KeysOf(Listed(variants, Present(folders)), PlaylistKey)
  {
    if k == SA.MasterKey {
      MasterSkipped(d);
    } else {
      var j, i :| 0 <= j < |variants| && 0 <= i < |Uploaded(folders[j])|
        && k == ResDir(variants[j]) + "/" + Uploaded(folders[j])[i].rel;
      StoredFileGain(d, variants, folders, j, i);
    }
  }

  /** A stored segment adds nothing; a stored playlist is a listed
      resolution's name. */
  lemma StoredFileGain(d: Dialect, variants: seq<int>, folders: seq<Folder>, j: int, i: int)
    requires |folders| == |variants| && HlsFolders(folders)
    requires 0 <= j < |variants| && 0 <= i < |Uploaded(folders[j])|
    ensures var k := ResDir(variants[j]) + "/" + Uploaded(folders[j])[i].rel;
      SA.Contribution(d, k) == SA.Skip || k in KeysOf(Listed(variants, Present(folders)), PlaylistKey)
  {
    var file := Uploaded(folders[j])[i];
    assert file == folders[j].files[i];
    assert HlsFile(file.rel);
    if file.rel == SA.PlaylistName {
      PlaylistAt(Uploaded(folders[j]), i);
      ListedHas(variants, Present(folders), j);
    } else {
      SegmentSkipped(d, variants[j], file.rel);
    }
  }

  /** A run that uploaded every variant playlist reports every variant:
      the ascending resolution list is the variant list itself. */
  lemma CompleteRunReady(d: Dialect, uploadID: string, variants: seq<int>, table: Table, folders: seq<Folder>,
                         listing: seq<string>)
    requires |folders| == |variants| && Covers(variants, table)
    requires Sorted(variants) && Distinct(variants) && InInt64(variants) && HlsFolders(folders)
    requires forall j :: 0 <= j < |folders| ==> PlaylistUploaded(folders[j])
    requires forall o :: o in listing <==> o in Written(uploadID, variants, table, folders, None)
    ensures SA.Aggregate(d, uploadID, SA.Objects(listing)) == SA.Reply(uploadID, "ready", variants)
  {
    StatusWhenReady(d, uploadID, variants, table, folders, None, listing);
    ListedAll(variants, Present(folders));
    SortedUnique(Sort(variants), variants);
  }

  /** When only the `ready` notice fails to go out, the run publishes
      `failed` on its channel while both status endpoints, which look at
      the bucket, already report it ready. */
  lemma PublishFailureStillReady(d: Dialect, uploadID: string, s3Key: string, variants: seq<int>, table: Table,
                                 folders: seq<Folder>, listing: seq<string>)
    requires |folders| == |variants| && Covers(variants, table)
    requires Distinct(variants) && InInt64(variants) && HlsFolders(folders)
    requires forall o :: o in listing <==> o in Written(uploadID, variants, table, folders, Some(PublishReady))
    ensures var t := Trace(uploadID, s3Key, variants, folders, Some(PublishReady));
      |t| >= 2 && t[|t| - 2] == Publish(StatusStream.Channel(uploadID), "failed")
    ensures SA.Aggregate(d, uploadID, SA.Objects(listing))
      == SA.Reply(uploadID, "ready", Sort(Listed(variants, Present(folders))))
  {
    OneStatusThenDelete(uploadID, s3Key, variants, folders, Some(PublishReady));
    StatusWhenReady(d, uploadID, variants, table, folders, Some(PublishReady), listing);
  }

  /** The worker's own variants meet the requirements above. */
  lemma TaskVariants()
    ensures Covers(Variants, VariantTable)
    ensures Sorted(Variants) && Distinct(Variants) && InInt64(Variants)
    ensures forall v :: v in VariantTable ==> Visible(VariantTable[v].resolution)
  {
  }

  /** A listing of exactly what a run of the worker stores, when nothing
      raised and every variant folder held its playlist, makes both status
      endpoints report `ready` with 360, 480, 720 and 1080. */
  lemma TaskRunReady(d: Dialect, uploadID: string, folders: seq<Folder>, listing: seq<string>)
    requires |folders| == |Variants| && HlsFolders(folders)
    requires forall j :: 0 <= j < |folders| ==> PlaylistUploaded(folders[j])
    requires forall o :: o in listing <==> o in Written(uploadID, Variants, VariantTable, folders, None)
    ensures SA.Aggregate(d, uploadID, SA.Objects(listing)) == SA.Reply(uploadID, "ready", [360, 480, 720, 1080])
  {
    TaskVariants();
    CompleteRunReady(d, uploadID, Variants, VariantTable, folders, listing);
  }

  // ---------------------------------------------------------------------
  // Both servers read the master the worker writes alike

  /** Printable ASCII without the space. */
  predicate Visible(s: string)
  {
    forall i :: 0 <= i < |s| ==> '!' <= s[i] <= '~'
  }

  lemma HeaderVisible(i: int)
    requires 0 <= i < |Header|
    ensures Visible(Header[i])
  {
    assert Header[0] == "#EXTM3U" && Header[1] == "#EXT-X-VERSION:3";
  }

  lemma ResolutionVisible(table: Table, v: int)
    requires forall v :: v in table ==> Visible(table[v].resolution)
    requires v in table
    ensures Visible(table[v].resolution)
  {
  }

  lemma VisibleUnpadded(s: string)
    requires Visible(s)
    ensures MasterPlaylist.Unpadded(s)
  {
  }

  lemma VisibleJoin(a: string, b: string)
    requires Visible(a) && Visible(b)
    ensures Visible(a + b)
  {
  }

  lemma DecimalVisible(n: int)
    ensures Visible(Decimal(n))
  {
  }

  lemma StreamInfVisible(info: VariantInfo)
    requires Visible(info.resolution)
    ensures Visible(StreamInf(info))
  {
    DecimalVisible(info.bandwidth);
    VisibleJoin("#EXT-X-STREAM-INF:BANDWIDTH=", Decimal(info.bandwidth));
    VisibleJoin("#EXT-X-STREAM-INF:BANDWIDTH=" + Decimal(info.bandwidth), ",RESOLUTION=");
    VisibleJoin("#EXT-X-STREAM-INF:BANDWIDTH=" + Decimal(info.bandwidth) + ",RESOLUTION=", info.resolution);
  }

  lemma VariantUriVisible(res: int)
    ensures Visible(VariantUri(res))
  {
    DecimalVisible(res);
    VisibleJoin(Decimal(res), "p");
    VisibleJoin(ResDir(res), "/playlist.m3u8");
  }

  /** Every line of a master playlist is printable ASCII without spaces
      when the resolutions of its table are. */
  lemma MasterLinesVisible(variants: seq<int>, table: Table)
    requires Covers(variants, table)
    requires forall v :: v in table ==> Visible(table[v].resolution)
    ensures forall l :: l in MasterLinesOf(variants, table) ==> Visible(l)
  {
    var lines := MasterLinesOf(variants, table);
    forall i | 0 <= i < |lines| ensures Visible(lines[i]) {
      MasterLineVisible(variants, table, i);
    }
  }

  lemma MasterLineVisible(variants: seq<int>, table: Table, i: int)
    requires Covers(variants, table)
    requires forall v :: v in table ==> Visible(table[v].resolution)
    requires 0 <= i < |MasterLinesOf(variants, table)|
    ensures Visible(MasterLinesOf(variants, table)[i])
  {
    var lines := MasterLinesOf(variants, table);
    assert |lines| == 2 + 2 * |variants|;
    if i < 2 {
      assert lines[i] == Header[i];
      HeaderVisible(i);
    } else {
      var k := (i - 2) / 2;
      if i % 2 == 0 {
        MasterInfLine(variants, table, k);
        assert i == 2 + 2 * k;
        assert 0 <= k < |variants| && variants[k] in table;
        ResolutionVisible(table, variants[k]);
        StreamInfVisible(table[variants[k]]);
      } else {
        MasterUriLine(variants, table, k);
        assert i == 3 + 2 * k;
        VariantUriVisible(variants[k]);
      }
    }
  }

  /** Go's and Python's master rewriters return the same playlist for any
      master the worker writes from a table of visible resolutions, with
      at least one variant. */
  lemma MasterReadersAgree(variants: seq<int>, table: Table, videoID: string)
    requires Covers(variants, table) && |variants| >= 1
    requires forall v :: v in table ==> Visible(table[v].resolution)
    ensures var text := Join(MasterLinesOf(variants, table), "\n");
      MasterPlaylist.GoMaster(text, videoID) == MasterPlaylist.PyMaster(text, videoID)
  {
    var lines := MasterLinesOf(variants, table);
    MasterLinesVisible(variants, table);
    forall l | l in lines ensures MasterPlaylist.Unpadded(l) {
      VisibleUnpadded(l);
    }
    MasterLayout(variants, table);
    var k := |variants| - 1;
    assert lines[|lines| - 1] == VariantUri(variants[k]) by {
      assert |lines| - 1 == 3 + 2 * k;
    }
    MasterPlaylist.MastersAgree(lines, videoID);
  }

  // ---------------------------------------------------------------------
  // The published status ends a status stream

  /** A client subscribed before the worker publishes, and not ended by
      anything earlier, receives every status up to the run's and then the
      stream closes as finished. */
  lemma {:induction false} StreamEndsOnRunStatus(pre: seq<StatusStream.Event>, failAt: Option<Step>,
                                                 post: seq<StatusStream.Event>)
    requires forall j :: 0 <= j < |pre| ==> !StatusStream.Exits(pre[j])
    ensures StatusStream.RunOf(pre + [StatusStream.Message(StatusOf(failAt))] + post)
      == StatusStream.Run(StatusStream.Messages(pre) + [StatusOf(failAt)], Some(StatusStream.Finished))
    decreases |pre|
  {
    var events := pre + [StatusStream.Message(StatusOf(failAt))] + post;
    if pre == [] {
      assert events[0] == StatusStream.Message(StatusOf(failAt));
    } else {
      assert !StatusStream.Exits(pre[0]);
      StreamEndsOnRunStatus(pre[1..], failAt, post);
      assert events[0] == pre[0];
      assert events[1..] == pre[1..] + [StatusStream.Message(StatusOf(failAt))] + post;
    }
  }

  // ---------------------------------------------------------------------
  // An issued upload reaches the worker

  /** The key an upload URL is issued for comes back in the bucket's
      notification and is dispatched to the worker with the same video id,
      by either server. */
  lemma UploadReachesWorker(u: seq<Bytes.byte>, filename: string, byExtension: string -> string,
                            guess: string -> Option<string>, presign: (string, string) -> Option<string>,
                            h: Upload.Headers, encoded: string,
                            unescape: string -> Option<string>, unquotePlus: string -> string)
    requires |u| == 16
    ensures var r := Upload.GoUpload(u, filename, byExtension, presign, h);
      r.UploadUrl? && unescape(encoded) == Some(r.s3Key) && unquotePlus(encoded) == r.s3Key ==>
        && Upload.GoWebhook(Some(Upload.S3Event(encoded)), unescape, true) == Upload.Dispatched(r.videoID, r.s3Key)
        && Upload.PyWebhook(Some(Upload.S3Event(encoded)), unquotePlus, true) == Upload.Dispatched(r.videoID, r.s3Key)
    ensures var r := Upload.PyUpload(u, filename, guess, presign, h);
      r.UploadUrl? && unescape(encoded) == Some(r.s3Key) && unquotePlus(encoded) == r.s3Key ==>
        && Upload.GoWebhook(Some(Upload.S3Event(encoded)), unescape, true) == Upload.Dispatched(r.videoID, r.s3Key)
        && Upload.PyWebhook(Some(Upload.S3Event(encoded)), unquotePlus, true) == Upload.Dispatched(r.videoID, r.s3Key)
  {
    Upload.VideoIDsAgree(u);
    var g := Upload.GoUpload(u, filename, byExtension, presign, h);
    if g.UploadUrl? && unescape(encoded) == Some(g.s3Key) && unquotePlus(encoded) == g.s3Key {
      Upload.WebhookFindsUpload(g.videoID, Upload.GoExtension(filename), encoded, unescape, unquotePlus);
    }
    var p := Upload.PyUpload(u, filename, guess, presign, h);
    if p.UploadUrl? && unescape(encoded) == Some(p.s3Key) && unquotePlus(encoded) == p.s3Key {
      Upload.WebhookFindsUpload(p.videoID, Upload.PyExtension(filename), encoded, unescape, unquotePlus);
    }
  }
}
