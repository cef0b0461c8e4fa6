/** The transcoding task process_video_from_s3: it uploads every variant's
    HLS folder, builds and uploads the master playlist, publishes `ready` or
    `failed` on the job's channel and finally deletes the pending upload.
    ffmpeg's output is given as the files each variant folder holds, and
    each storage or pub/sub call that can raise is named by a Step. */
module Worker {
  import opened Wrappers
  import opened Text
  import opened Numbers
  import StatusStream

  /** The variants the worker transcodes, in the order it lists them. */
  const Variants: seq<int> := [360, 480, 720, 1080]

  datatype VariantInfo = VariantInfo(bandwidth: int, resolution: string)

  /** A variant_info table: bandwidth and frame size per resolution. */
  type Table = map<int, VariantInfo>

  /** The worker's own variant_info table. */
  const VariantTable: Table := map[
    360 := VariantInfo(800000, "640x360"),
    480 := VariantInfo(1400000, "854x480"),
    720 := VariantInfo(2800000, "1280x720"),
    1080 := VariantInfo(5000000, "1920x1080")]

  /** Every variant has a table entry (a missing one raises KeyError). */
  predicate Covers(variants: seq<int>, table: Table)
  {
    forall j :: 0 <= j < |variants| ==> variants[j] in table
  }

  const Header: seq<string> := ["#EXTM3U", "#EXT-X-VERSION:3"]

  /** The folder a variant is written to, `{res}p`. */
  function ResDir(res: int): string
  {
    Decimal(res) + "p"
  }

  function StreamInf(info: VariantInfo): string
  {
    "#EXT-X-STREAM-INF:BANDWIDTH=" + Decimal(info.bandwidth) + ",RESOLUTION=" + info.resolution
  }

  function VariantUri(res: int): string
  {
    ResDir(res) + "/playlist.m3u8"
  }

  /** The two lines each variant adds, for the variants in order. */
  function VariantLines(vs: seq<int>, table: Table): (lines: seq<string>)
    requires Covers(vs, table)
    ensures |lines| == 2 * |vs|
  {
    if vs == [] then []
    else
      var v := vs[|vs| - 1];
      VariantLines(vs[..|vs| - 1], table) + [StreamInf(table[v]), VariantUri(v)]
  }

  /** The lines of a master playlist over the given variants. */
  function MasterLinesOf(variants: seq<int>, table: Table): seq<string>
    requires Covers(variants, table)
  {
    Header + VariantLines(variants, table)
  }

  /** What the worker writes to master.m3u8: its lines joined by "\n". */
  function MasterText(): string
  {
    Join(MasterLinesOf(Variants, VariantTable), "\n")
  }

  /** The loop that appends two lines per variant to the header. */
  method BuildMasterLines(variants: seq<int>, table: Table) returns (lines: seq<string>)
    requires Covers(variants, table)
    ensures lines == MasterLinesOf(variants, table)
  {
    lines := Header;
    assert variants[..0] == [];
    assert lines == Header + VariantLines([], table);
    for i := 0 to |variants|
      invariant lines == Header + VariantLines(variants[..i], table)
    {
      var res := variants[i];
      var info := table[res];
      VariantLinesSnoc(variants, table, i);
      AppendTwo(Header, VariantLines(variants[..i], table), StreamInf(info), VariantUri(res));
      lines := lines + [StreamInf(info)];
      lines := lines + [VariantUri(res)];
    }
    assert variants[..|variants|] == variants;
  }

  lemma AppendTwo(h: seq<string>, a: seq<string>, x: string, y: string)
    ensures h + a + [x] + [y] == h + (a + [x, y])
  {
  }

  lemma VariantLinesSnoc(vs: seq<int>, table: Table, i: nat)
    requires Covers(vs, table)
    requires i < |vs|
    ensures Covers(vs[..i], table) && Covers(vs[..i + 1], table)
    ensures VariantLines(vs[..i + 1], table) == VariantLines(vs[..i], table) + [StreamInf(table[vs[i]]), VariantUri(vs[i])]
  {
    assert vs[..i + 1][..i] == vs[..i];
  }

  /** Line 2k+2 announces variant k and line 2k+3 names its playlist. */
  lemma {:induction false} VariantLinesAt(vs: seq<int>, table: Table, k: nat)
    requires Covers(vs, table)
    requires k < |vs|
    ensures VariantLines(vs, table)[2 * k] == StreamInf(table[vs[k]])
    ensures VariantLines(vs, table)[2 * k + 1] == VariantUri(vs[k])
    decreases |vs|
  {
    var init := vs[..|vs| - 1];
    if k < |vs| - 1 {
      VariantLinesAt(init, table, k);
      assert init[k] == vs[k];
    }
  }

  /** Line j of the variant lines is line j + 2 of the master playlist. */
  lemma AfterHeader(body: seq<string>, j: nat)
    requires j < |body|
    ensures (Header + body)[2 + j] == body[j]
  {
  }

  /** Variant k's STREAM-INF line follows the header and the lines of the
      variants before it. */
  lemma MasterInfLine(variants: seq<int>, table: Table, k: nat)
    requires Covers(variants, table) && k < |variants|
    ensures MasterLinesOf(variants, table)[2 + 2 * k] == StreamInf(table[variants[k]])
  {
    VariantLinesAt(variants, table, k);
    AfterHeader(VariantLines(variants, table), 2 * k);
  }

  /** Variant k's playlist line comes right after its STREAM-INF line. */
  lemma MasterUriLine(variants: seq<int>, table: Table, k: nat)
    requires Covers(variants, table) && k < |variants|
    ensures MasterLinesOf(variants, table)[3 + 2 * k] == VariantUri(variants[k])
  {
    VariantLinesAt(variants, table, k);
    AfterHeader(VariantLines(variants, table), 2 * k + 1);
  }

  /** A master playlist starts with the two header lines and then, for each
      variant in order, a STREAM-INF line with its table entry followed by
      `{res}p/playlist.m3u8`. */
  lemma MasterLayout(variants: seq<int>, table: Table)
    requires Covers(variants, table)
    ensures |MasterLinesOf(variants, table)| == 2 + 2 * |variants|
    ensures MasterLinesOf(variants, table)[..2] == Header
    ensures forall k :: 0 <= k < |variants| ==>
      MasterLinesOf(variants, table)[2 + 2 * k] == StreamInf(table[variants[k]])
      && MasterLinesOf(variants, table)[3 + 2 * k] == VariantUri(variants[k])
  {
    var body := VariantLines(variants, table);
    assert (Header + body)[..2] == Header;
    forall k | 0 <= k < |variants|
      ensures MasterLinesOf(variants, table)[2 + 2 * k] == StreamInf(table[variants[k]])
      ensures MasterLinesOf(variants, table)[3 + 2 * k] == VariantUri(variants[k])
    {
      MasterInfLine(variants, table, k);
      MasterUriLine(variants, table, k);
    }
  }

  /** The worker's own master playlist (its variants and table are passed in
      as equal copies): ten lines, with the 720 variant announced with its
      bandwidth and frame size. */
  lemma TaskMasterLines(variants: seq<int>, table: Table)
    requires variants == Variants && table == VariantTable
    ensures Covers(variants, table) && |MasterLinesOf(variants, table)| == 10
    ensures MasterLinesOf(variants, table)[6] == StreamInf(VariantInfo(2800000, "1280x720"))
  {
    assert variants[2] == 720 && table[720] == VariantInfo(2800000, "1280x720");
    MasterInfLine(variants, table, 2);
  }

  /** The text the worker uploads ends in the 1080 playlist line, with no line
      break after it. */
  lemma TaskMasterText(variants: seq<int>, table: Table)
    requires variants == Variants && table == VariantTable
    ensures Covers(variants, table) && MasterLinesOf(variants, table)[9] == VariantUri(1080)
    ensures var t := MasterText(); t != [] && t[|t| - 1] != '\n'
  {
    assert variants[3] == 1080;
    MasterUriLine(variants, table, 3);
    JoinEndsLikeLastPiece(MasterLinesOf(variants, table), '\n');
  }

  // ---------------------------------------------------------------------
  // Storage, pub/sub and the effects of one run

  /** One file ffmpeg wrote into a variant folder: its path relative to the
      folder, and its content. */
  datatype OutputFile = OutputFile(rel: string, body: string)

  /** A variant folder: its files in the order os.walk yields them, and how
      many of them upload before an upload raises (at least |files| when
      none does). */
  datatype Folder = Folder(files: seq<OutputFile>, uploads: nat)

  /** The calls that can raise inside the try block. */
  datatype Step = Presign | Transcode | WriteMaster | UploadMaster | PublishReady

  /** What the run does to the outside world, in order. */
  datatype Effect = Put(key: string) | Publish(channel: string, payload: string) | Delete(key: string)

  datatype Outcome = Succeeded | Raised

  function SegmentKey(uploadID: string, res: int, rel: string): string
  {
    "videos/" + uploadID + "/" + ResDir(res) + "/" + rel
  }

  function MasterObjectKey(uploadID: string): string
  {
    "videos/" + uploadID + "/master.m3u8"
  }

  /** The buckets and the effect log the worker works on. */
  class Storage {
    var streaming: map<string, string>
    var pending: set<string>
    var log: seq<Effect>
  }

  /** The files of a folder that are uploaded. */
  function Uploaded(f: Folder): seq<OutputFile>
  {
    if f.uploads < |f.files| then f.files[..f.uploads] else f.files
  }

  /** The puts and objects of a folder's first files, in order. */
  function FolderPuts(uploadID: string, res: int, files: seq<OutputFile>): (puts: seq<Effect>)
    ensures |puts| == |files|
    ensures forall i :: 0 <= i < |puts| ==> puts[i] == Put(SegmentKey(uploadID, res, files[i].rel))
  {
    if files == [] then []
    else FolderPuts(uploadID, res, files[..|files| - 1]) + [Put(SegmentKey(uploadID, res, files[|files| - 1].rel))]
  }

  function FolderObjects(uploadID: string, res: int, files: seq<OutputFile>): map<string, string>
  {
    if files == [] then map[]
    else
      var f := files[|files| - 1];
      FolderObjects(uploadID, res, files[..|files| - 1])[SegmentKey(uploadID, res, f.rel) := f.body]
  }

  /** Writing one more object into a bucket that already holds a run's
      earlier objects. */
  lemma AddUpdate(a: map<string, string>, b: map<string, string>, k: string, v: string)
    ensures (a + b)[k := v] == a + b[k := v]
  {
  }

  /** upload_folder: the files upload one by one until one raises, which
      ends the folder. */
  method UploadFolder(st: Storage, uploadID: string, res: int, f: Folder)
    modifies st
    ensures st.streaming == old(st.streaming) + FolderObjects(uploadID, res, Uploaded(f))
    ensures st.log == old(st.log) + FolderPuts(uploadID, res, Uploaded(f))
    ensures st.pending == old(st.pending)
  {
    var files := Uploaded(f);
    for i := 0 to |files|
      invariant st.streaming == old(st.streaming) + FolderObjects(uploadID, res, files[..i])
      invariant st.log == old(st.log) + FolderPuts(uploadID, res, files[..i])
      invariant st.pending == old(st.pending)
    {
      assert files[..i + 1][..i] == files[..i];
      var file := files[i];
      AddUpdate(old(st.streaming), FolderObjects(uploadID, res, files[..i]), SegmentKey(uploadID, res, file.rel), file.body);
      st.streaming := st.streaming[SegmentKey(uploadID, res, file.rel) := file.body];
      st.log := st.log + [Put(SegmentKey(uploadID, res, file.rel))];
    }
    assert files[..|files|] == files;
  }

  /** The puts and objects of the folders of the first variants. */
  function SegmentPuts(uploadID: string, vs: seq<int>, folders: seq<Folder>): (puts: seq<Effect>)
    requires |vs| == |folders|
    ensures forall e :: e in puts ==> e.Put?
  {
    if vs == [] then []
    else
      var n := |vs| - 1;
      SegmentPuts(uploadID, vs[..n], folders[..n]) + FolderPuts(uploadID, vs[n], Uploaded(folders[n]))
  }

  function SegmentObjects(uploadID: string, vs: seq<int>, folders: seq<Folder>): map<string, string>
    requires |vs| == |folders|
  {
    if vs == [] then map[]
    else
      var n := |vs| - 1;
      SegmentObjects(uploadID, vs[..n], folders[..n]) + FolderObjects(uploadID, vs[n], Uploaded(folders[n]))
  }

  /** The pool that uploads the folders: one upload_folder per variant, in
      variant order; nothing it raises reaches the job. */
  method UploadSegments(st: Storage, uploadID: string, variants: seq<int>, folders: seq<Folder>)
    requires |folders| == |variants|
    modifies st
    ensures st.streaming == old(st.streaming) + SegmentObjects(uploadID, variants, folders)
    ensures st.log == old(st.log) + SegmentPuts(uploadID, variants, folders)
    ensures st.pending == old(st.pending)
  {
    for i := 0 to |variants|
      invariant st.streaming == old(st.streaming) + SegmentObjects(uploadID, variants[..i], folders[..i])
      invariant st.log == old(st.log) + SegmentPuts(uploadID, variants[..i], folders[..i])
      invariant st.pending == old(st.pending)
    {
      SegmentsSnoc(uploadID, variants, folders, i);
      MapAppend(old(st.streaming), SegmentObjects(uploadID, variants[..i], folders[..i]),
                FolderObjects(uploadID, variants[i], Uploaded(folders[i])));
      LogAppend(old(st.log), SegmentPuts(uploadID, variants[..i], folders[..i]),
                FolderPuts(uploadID, variants[i], Uploaded(folders[i])));
      UploadFolder(st, uploadID, variants[i], folders[i]);
    }
    assert variants[..|variants|] == variants;
    assert folders[..|folders|] == folders;
  }

  lemma SegmentsSnoc(uploadID: string, vs: seq<int>, folders: seq<Folder>, i: nat)
    requires |vs| == |folders| && i < |vs|
    ensures SegmentPuts(uploadID, vs[..i + 1], folders[..i + 1])
      == SegmentPuts(uploadID, vs[..i], folders[..i]) + FolderPuts(uploadID, vs[i], Uploaded(folders[i]))
    ensures SegmentObjects(uploadID, vs[..i + 1], folders[..i + 1])
      == SegmentObjects(uploadID, vs[..i], folders[..i]) + FolderObjects(uploadID, vs[i], Uploaded(folders[i]))
  {
    assert vs[..i + 1][..i] == vs[..i];
    assert folders[..i + 1][..i] == folders[..i];
  }

  lemma LogAppend(a: seq<Effect>, b: seq<Effect>, c: seq<Effect>)
    ensures a + b + c == a + (b + c)
  {
  }

  lemma MapAppend(a: map<string, string>, b: map<string, string>, c: map<string, string>)
    ensures a + b + c == a + (b + c)
  {
  }

  /** Steps whose failure comes before any segment is uploaded, and before
      the master is uploaded. */
  predicate FailsEarly(failAt: Option<Step>)
  {
    failAt == Some(Presign) || failAt == Some(Transcode)
  }

  predicate MasterMissing(failAt: Option<Step>)
  {
    FailsEarly(failAt) || failAt == Some(WriteMaster) || failAt == Some(UploadMaster)
  }

  /** The status a run publishes. */
  function StatusOf(failAt: Option<Step>): string
  {
    if failAt.None? then "ready" else "failed"
  }

  /** The uploads the try block gets through when `failAt` raises (None:
      nothing does). */
  function Attempt(uploadID: string, variants: seq<int>, folders: seq<Folder>, failAt: Option<Step>): seq<Effect>
    requires |folders| == |variants|
  {
    var segments := if FailsEarly(failAt) then [] else SegmentPuts(uploadID, variants, folders);
    var master := if MasterMissing(failAt) then [] else [Put(MasterObjectKey(uploadID))];
    segments + master
  }

  /** The effects of a whole run: the uploads, the one status published and
      the delete of the pending object. */
  function Trace(uploadID: string, s3Key: string, variants: seq<int>, folders: seq<Folder>, failAt: Option<Step>): seq<Effect>
    requires |folders| == |variants|
  {
    Attempt(uploadID, variants, folders, failAt) + [Publish(StatusStream.Channel(uploadID), StatusOf(failAt)), Delete(s3Key)]
  }

  /** The objects a run writes to the streaming bucket. */
  function Written(uploadID: string, variants: seq<int>, table: Table, folders: seq<Folder>, failAt: Option<Step>): map<string, string>
    requires |folders| == |variants| && Covers(variants, table)
  {
    var segments := if FailsEarly(failAt) then map[] else SegmentObjects(uploadID, variants, folders);
    if MasterMissing(failAt) then segments
    else segments[MasterObjectKey(uploadID) := Join(MasterLinesOf(variants, table), "\n")]
  }

  /** The try block after the segment uploads: build and upload the master
      playlist, then publish `ready`; it returns whether a step raised. */
  method PublishMaster(st: Storage, uploadID: string, variants: seq<int>, table: Table,
                       failAt: Option<Step>) returns (failed: bool)
    requires Covers(variants, table) && !FailsEarly(failAt)
    modifies st
    ensures failed <==> failAt.Some?
    ensures st.log == old(st.log) + (if MasterMissing(failAt) then [] else [Put(MasterObjectKey(uploadID))])
      + (if failed then [] else [Publish(StatusStream.Channel(uploadID), "ready")])
    ensures st.streaming == if MasterMissing(failAt) then old(st.streaming)
      else old(st.streaming)[MasterObjectKey(uploadID) := Join(MasterLinesOf(variants, table), "\n")]
    ensures st.pending == old(st.pending)
  {
    failed := true;
    var lines := BuildMasterLines(variants, table);
    var content := Join(lines, "\n");
    if !MasterMissing(failAt) {
      st.streaming := st.streaming[MasterObjectKey(uploadID) := content];
      st.log := st.log + [Put(MasterObjectKey(uploadID))];
      // Every other step raised before this point.
      assert failAt.Some? ==> failAt.value == PublishReady;
      if failAt != Some(PublishReady) {
        st.log := st.log + [Publish(StatusStream.Channel(uploadID), "ready")];
        failed := false;
      }
    }
  }

  /** The try block up to the `ready` publish: it returns whether the block
      raised. */
  method TryBlock(st: Storage, uploadID: string, variants: seq<int>, table: Table, folders: seq<Folder>,
                  failAt: Option<Step>) returns (failed: bool)
    requires |folders| == |variants| && Covers(variants, table)
    modifies st
    ensures failed <==> failAt.Some?
    ensures st.log == old(st.log) + Attempt(uploadID, variants, folders, failAt)
      + (if failed then [] else [Publish(StatusStream.Channel(uploadID), "ready")])
    ensures st.streaming == old(st.streaming) + Written(uploadID, variants, table, folders, failAt)
    ensures st.pending == old(st.pending)
  {
    if FailsEarly(failAt) {
      failed := true;
      return;
    }
    UploadSegments(st, uploadID, variants, folders);
    ghost var mid := st.log;
    failed := PublishMaster(st, uploadID, variants, table, failAt);
    var master := if MasterMissing(failAt) then [] else [Put(MasterObjectKey(uploadID))];
    var ready := if failed then [] else [Publish(StatusStream.Channel(uploadID), "ready")];
    LogAppend(old(st.log), SegmentPuts(uploadID, variants, folders), master);
    AddUpdate(old(st.streaming), SegmentObjects(uploadID, variants, folders),
              MasterObjectKey(uploadID), Join(MasterLinesOf(variants, table), "\n"));
  }

  /** process_video_from_s3: the try block, the except that publishes
      `failed` and re-raises, and the finally that deletes the pending
      object, swallowing a failed delete (`deleteOk` false). */
  method ProcessVideo(st: Storage, uploadID: string, s3Key: string, variants: seq<int>, table: Table,
                      folders: seq<Folder>, failAt: Option<Step>, deleteOk: bool) returns (outcome: Outcome)
    requires |folders| == |variants| && Covers(variants, table)
    modifies st
    ensures outcome == (if failAt.None? then Succeeded else Raised)
    ensures st.log == old(st.log) + Trace(uploadID, s3Key, variants, folders, failAt)
    ensures st.streaming == old(st.streaming) + Written(uploadID, variants, table, folders, failAt)
    ensures st.pending == (if deleteOk then old(st.pending) - {s3Key} else old(st.pending))
  {
    var failed := TryBlock(st, uploadID, variants, table, folders, failAt);
    if failed {
      st.log := st.log + [Publish(StatusStream.Channel(uploadID), "failed")];
      outcome := Raised;
    } else {
      outcome := Succeeded;
    }
    st.log := st.log + [Delete(s3Key)];
    if deleteOk {
      st.pending := st.pending - {s3Key};
    }
  }

  // ---------------------------------------------------------------------
  // What the trace promises

  /** Every run publishes exactly one status, `ready` when nothing raised
      and `failed` otherwise, on the job's channel; deleting the pending
      object is the last thing it does, on every path. */
  lemma OneStatusThenDelete(uploadID: string, s3Key: string, variants: seq<int>, folders: seq<Folder>, failAt: Option<Step>)
    requires |folders| == |variants|
    ensures var t := Trace(uploadID, s3Key, variants, folders, failAt);
      && |t| >= 2
      && t[|t| - 1] == Delete(s3Key)
      && t[|t| - 2] == Publish(StatusStream.Channel(uploadID), StatusOf(failAt))
      && (forall i :: 0 <= i < |t| && t[i].Publish? ==> i == |t| - 2)
      && (forall i :: 0 <= i < |t| && t[i].Delete? ==> i == |t| - 1)
  {
    var t := Trace(uploadID, s3Key, variants, folders, failAt);
    var segments := if FailsEarly(failAt) then [] else SegmentPuts(uploadID, variants, folders);
    var master := if MasterMissing(failAt) then [] else [Put(MasterObjectKey(uploadID))];
    forall i | 0 <= i < |segments| + |master|
      ensures t[i].Put?
    {
      if i < |segments| {
        assert t[i] == segments[i];
        assert segments[i] in segments;
      } else {
        assert t[i] == master[i - |segments|];
      }
    }
  }

  /** `ready` is published only after the master playlist is uploaded, and
      every segment upload was submitted before that. */
  lemma ReadyAfterMaster(uploadID: string, s3Key: string, variants: seq<int>, folders: seq<Folder>, failAt: Option<Step>)
    requires |folders| == |variants|
    ensures var t := Trace(uploadID, s3Key, variants, folders, failAt);
      StatusOf(failAt) == "ready" ==>
        && |t| >= 3
        && t[|t| - 3] == Put(MasterObjectKey(uploadID))
        && t[..|t| - 3] == SegmentPuts(uploadID, variants, folders)
  {
    if failAt.None? {
      var segments := SegmentPuts(uploadID, variants, folders);
      var t := Trace(uploadID, s3Key, variants, folders, failAt);
      var tail := [Put(MasterObjectKey(uploadID)), Publish(StatusStream.Channel(uploadID), "ready"), Delete(s3Key)];
      assert t == segments + tail;
      assert t[..|t| - 3] == segments;
    }
  }

  /** Whether any segment upload raised changes nothing about the status
      a run publishes: the status depends on `failAt` alone. */
  lemma SegmentFailuresUnobserved(uploadID: string, s3Key: string, variants: seq<int>, a: seq<Folder>, b: seq<Folder>, failAt: Option<Step>)
    requires |a| == |variants| && |b| == |variants|
    ensures var ta := Trace(uploadID, s3Key, variants, a, failAt);
      var tb := Trace(uploadID, s3Key, variants, b, failAt);
      |ta| >= 2 && |tb| >= 2 && ta[|ta| - 2] == tb[|tb| - 2]
  {
    OneStatusThenDelete(uploadID, s3Key, variants, a, failAt);
    OneStatusThenDelete(uploadID, s3Key, variants, b, failAt);
  }

  /** A run that publishes `ready` holds the master playlist text under
      videos/{upload_id}/master.m3u8. */
  lemma MasterWritten(uploadID: string, variants: seq<int>, table: Table, folders: seq<Folder>, failAt: Option<Step>)
    requires |folders| == |variants| && Covers(variants, table)
    ensures var w := Written(uploadID, variants, table, folders, failAt);
      StatusOf(failAt) == "ready" ==>
        MasterObjectKey(uploadID) in w && w[MasterObjectKey(uploadID)] == Join(MasterLinesOf(variants, table), "\n")
  {
  }
}
