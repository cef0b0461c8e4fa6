/** Job status from an object listing: Stream_status in Go and get_status in
    Python. The keys under `videos/{uploadID}/` are stripped of that prefix
    and collected into a set; the job is ready once `master.m3u8` is among
    them, and then every variant playlist key contributes its resolution. */
module StatusAggregation {
  import opened Wrappers
  import opened Text
  import opened Numbers
  import opened Sorting
  import opened Dialects

  const MasterKey: string := "master.m3u8"
  const PlaylistName: string := "playlist.m3u8"

  function Prefix(uploadID: string): string
  {
    "videos/" + uploadID + "/"
  }

  /** What the storage listing returned: an error, or the object keys. */
  datatype Listing = ListError | Objects(keys: seq<string>)

  /** The outcomes of the endpoint: 500 when the listing fails, 404 for an
      empty listing, the exception int() raises on a bad label (Python
      only), or the status body. */
  datatype StatusReply =
    | ListingFailed
    | NotFound
    | ConversionFailed
    | Reply(uploadID: string, status: string, resolutions: seq<int>)

  /** The set of prefix-stripped keys. */
  function KeySet(objects: seq<string>, prefix: string): (keys: set<string>)
    ensures forall o :: o in objects ==> TrimPrefix(o, prefix) in keys
    ensures forall k :: k in keys ==> exists o :: o in objects && TrimPrefix(o, prefix) == k
  {
    set o | o in objects :: TrimPrefix(o, prefix)
  }

  /** What one key adds to the resolution list. */
  datatype Gain = Skip | Add(value: int) | Raise

  /** Go: a key containing '/' and ending in playlist.m3u8 whose first
      '/'-piece ends in 'p' adds the Atoi value of that piece without the
      'p'; a failed Atoi skips the key. Python: no '/' test, and a failed
      int() raises. */
  function Contribution(d: Dialect, k: string): Gain
  {
    if !HasSuffix(k, PlaylistName) then Skip
    else if d == Go && '/' !in k then Skip
    else
      var resLabel := FirstPiece(k, '/');
      if !HasSuffix(resLabel, "p") then Skip
      else
        LabelGain(d, resLabel[..|resLabel| - 1])
  }

  /** What the digits before the 'p' add: Atoi failures are skipped, int()
      failures raise. */
  function LabelGain(d: Dialect, digits: string): Gain
  {
    match d
    case Go => (match GoAtoi(digits) case None => Skip case Some(v) => Add(v))
    case Python => (match PyInt(digits) case None => Raise case Some(v) => Add(v))
  }

  function Added(g: Gain): seq<int>
  {
    if g.Add? then [g.value] else []
  }

  ghost function Pick(keys: set<string>): (k: string)
    requires keys != {}
    ensures k in keys
  {
    var k :| k in keys; k
  }

  /** What each key adds, in one dialect. */
  function Gains(d: Dialect): string -> Gain
  {
    k => Contribution(d, k)
  }

  /** The values the keys add, in some order. */
  ghost function GatheredBy(gain: string -> Gain, keys: set<string>): seq<int>
    decreases keys
  {
    if keys == {} then []
    else
      var k := Pick(keys);
      GatheredBy(gain, keys - {k}) + Added(gain(k))
  }

  ghost function Gathered(d: Dialect, keys: set<string>): seq<int>
  {
    GatheredBy(Gains(d), keys)
  }

  ghost predicate AnyRaise(d: Dialect, keys: set<string>)
  {
    exists k :: k in keys && Contribution(d, k).Raise?
  }

  /** The reply of either endpoint on a cache miss. */
  ghost function Aggregate(d: Dialect, uploadID: string, listing: Listing): StatusReply
  {
    match listing
    case ListError => ListingFailed
    case Objects(objects) =>
      if objects == [] then NotFound
      else
        var keys := KeySet(objects, Prefix(uploadID));
        if MasterKey !in keys then Reply(uploadID, "processing", [])
        else if AnyRaise(d, keys) then ConversionFailed
        else Reply(uploadID, "ready", Sort(Gathered(d, keys)))
  }

  /** The gathered values do not depend on which key is taken first. */
  lemma {:induction false} GatheredRemove(gain: string -> Gain, keys: set<string>, k: string)
    requires k in keys
    ensures multiset(GatheredBy(gain, keys)) == multiset(GatheredBy(gain, keys - {k})) + multiset(Added(gain(k)))
    decreases |keys|
  {
    var j := Pick(keys);
    if j != k {
      GatheredRemove(gain, keys - {j}, k);
      GatheredRemove(gain, keys - {k}, j);
      assert keys - {j} - {k} == keys - {k} - {j};
    }
  }

  /** A value is gathered iff some key adds it. */
  lemma {:induction false} GatheredMembers(gain: string -> Gain, keys: set<string>, v: int)
    ensures v in GatheredBy(gain, keys) <==> exists k :: k in keys && gain(k) == Add(v)
    decreases |keys|
  {
    if keys != {} {
      var j := Pick(keys);
      GatheredMembers(gain, keys - {j}, v);
      if v in GatheredBy(gain, keys) && v !in GatheredBy(gain, keys - {j}) {
        assert gain(j) == Add(v);
      }
      if exists k :: k in keys && gain(k) == Add(v) {
        var k :| k in keys && gain(k) == Add(v);
        if k == j {
          assert v in Added(gain(j));
        }
      }
    }
  }

  /** Go never raises: a label Atoi rejects is skipped. */
  lemma GoNeverRaises(uploadID: string, listing: Listing)
    ensures Aggregate(Go, uploadID, listing) != ConversionFailed
  {
    if listing.Objects? && listing.keys != [] {
      var keys := KeySet(listing.keys, Prefix(uploadID));
      assert !AnyRaise(Go, keys);
    }
  }

  /** The reply as the source promises it: a listing error iff the listing
      fails, 404 iff it is empty, a conversion error (Python's `int()`
      raising, a 500) iff master.m3u8 is listed and some key's label does
      not convert; otherwise ready iff master.m3u8 is listed, a
      processing job has no resolutions, and a ready job lists, in
      ascending order, exactly the values its keys add, each as often as
      keys add it. */
  lemma AggregateMeaning(d: Dialect, uploadID: string, listing: Listing)
    ensures var r := Aggregate(d, uploadID, listing);
      && (r.ListingFailed? <==> listing.ListError?)
      && (r.NotFound? <==> listing == Objects([]))
      && (r.ConversionFailed? <==>
            && listing.Objects? && listing.keys != []
            && MasterKey in KeySet(listing.keys, Prefix(uploadID))
            && AnyRaise(d, KeySet(listing.keys, Prefix(uploadID))))
      && (r.Reply? ==>
            var keys := KeySet(listing.keys, Prefix(uploadID));
            && r.uploadID == uploadID
            && (r.status == "ready" <==> MasterKey in keys)
            && (r.status == "processing" <==> MasterKey !in keys)
            && (MasterKey !in keys ==> r.resolutions == [])
            && Sorted(r.resolutions)
            && (MasterKey in keys ==> multiset(r.resolutions) == multiset(Gathered(d, keys))))
  {
  }

  /** Every listed resolution comes from a key, and every key's value is
      listed. */
  lemma ResolutionsFromKeys(d: Dialect, uploadID: string, listing: Listing, v: int)
    requires Aggregate(d, uploadID, listing).Reply?
    requires MasterKey in KeySet(listing.keys, Prefix(uploadID))
    ensures var keys := KeySet(listing.keys, Prefix(uploadID));
      v in Aggregate(d, uploadID, listing).resolutions <==> exists k :: k in keys && Contribution(d, k) == Add(v)
  {
    var keys := KeySet(listing.keys, Prefix(uploadID));
    var g := Gathered(d, keys);
    GatheredMembers(Gains(d), keys, v);
    assert v in g <==> v in multiset(g);
    assert v in Sort(g) <==> v in multiset(Sort(g));
  }

  /** A key without '/' never adds anything in Python either: its first
      piece is the whole key, which ends in '8', not 'p'. */
  lemma SlashlessSkipped(k: string)
    requires '/' !in k
    ensures Contribution(Python, k) == Skip
  {
    if HasSuffix(k, PlaylistName) {
      assert k[|k| - 1] == '8';
    }
  }

  /** On a label of plain ASCII digits within int64 the two agree. */
  lemma ContributionsAgree(k: string)
    requires var resLabel := FirstPiece(k, '/');
      HasSuffix(k, PlaylistName) && HasSuffix(resLabel, "p") ==>
        var digits := resLabel[..|resLabel| - 1];
        |digits| >= 1 && AllDigits(digits) && DigitsValue(digits) <= Int64Max
    ensures Contribution(Go, k) == Contribution(Python, k)
  {
    if '/' !in k {
      SlashlessSkipped(k);
    } else if HasSuffix(k, PlaylistName) {
      var resLabel := FirstPiece(k, '/');
      if HasSuffix(resLabel, "p") {
        AtoiAgreesWithInt(resLabel[..|resLabel| - 1]);
      }
    }
  }

  /** Stream_status: the key map, the loop over its keys, and sort.Ints. */
  method GoStreamStatus(uploadID: string, listing: Listing) returns (r: StatusReply)
    ensures r == Aggregate(Go, uploadID, listing)
  {
    if listing.ListError? {
      return ListingFailed;
    }
    var objects := listing.keys;
    if |objects| == 0 {
      return NotFound;
    }
    var prefix := Prefix(uploadID);
    var keys := CollectKeys(objects, prefix);
    var status := "processing";
    var resolutions: seq<int> := [];
    if MasterKey in keys {
      status := "ready";
      resolutions := GoResolutions(keys);
      assert !AnyRaise(Go, keys);
      SortPermutation(resolutions, Gathered(Go, keys));
    }
    r := Reply(uploadID, status, Sort(resolutions));
  }

  /** The Go loop over the keys, in whatever order the map yields them. */
  method GoResolutions(keys: set<string>) returns (resolutions: seq<int>)
    ensures multiset(resolutions) == multiset(Gathered(Go, keys))
  {
    resolutions := [];
    var rest := keys;
    while rest != {}
      invariant rest <= keys
      invariant multiset(resolutions) + multiset(Gathered(Go, rest)) == multiset(Gathered(Go, keys))
      decreases |rest|
    {
      var k :| k in rest;
      var added := GoKeyResolution(k);
      resolutions := resolutions + added;
      GatheredRemove(Gains(Go), rest, k);
      rest := rest - {k};
    }
    assert Gathered(Go, rest) == [];
  }

  /** get_status: the key set, the loop over it (an int() failure ends the
      request), and sorted(). */
  method PyGetStatus(uploadID: string, listing: Listing) returns (r: StatusReply)
    ensures r == Aggregate(Python, uploadID, listing)
  {
    if listing.ListError? {
      return ListingFailed;
    }
    var contents := listing.keys;
    if |contents| == 0 {
      return NotFound;
    }
    var prefix := Prefix(uploadID);
    var keys := CollectKeys(contents, prefix);
    var status := "processing";
    var resolutions: seq<int> := [];
    if MasterKey in keys {
      status := "ready";
      var raised;
      resolutions, raised := PyResolutions(keys);
      if raised {
        return ConversionFailed;
      }
      SortPermutation(resolutions, Gathered(Python, keys));
    }
    r := Reply(uploadID, status, Sort(resolutions));
  }

  /** The Python loop over the key set, in whatever order the set yields
      them; `raised` when int() raised on some key. */
  method PyResolutions(keys: set<string>) returns (resolutions: seq<int>, raised: bool)
    ensures raised <==> AnyRaise(Python, keys)
    ensures !raised ==> multiset(resolutions) == multiset(Gathered(Python, keys))
  {
    resolutions, raised := [], false;
    var rest := keys;
    while rest != {}
      invariant rest <= keys
      invariant multiset(resolutions) + multiset(Gathered(Python, rest)) == multiset(Gathered(Python, keys))
      invariant forall k :: k in keys - rest ==> !Contribution(Python, k).Raise?
      decreases |rest|
    {
      var k :| k in rest;
      var added;
      added, raised := PyKeyResolution(k);
      if raised {
        assert k in keys && Contribution(Python, k).Raise?;
        return;
      }
      resolutions := resolutions + added;
      GatheredRemove(Gains(Python), rest, k);
      rest := rest - {k};
    }
    assert Gathered(Python, rest) == [];
    assert keys - rest == keys;
    assert !AnyRaise(Python, keys);
  }

  /** The body of the Go loop for one key: the resolution it appends, if any. */
  method GoKeyResolution(k: string) returns (added: seq<int>)
    ensures added == Added(Contribution(Go, k))
    ensures |added| <= 1
  {
    ghost var g := Contribution(Go, k);
    added := [];
    if HasSuffix(k, PlaylistName) && '/' in k {
      var resStr := FirstPiece(k, '/');
      if HasSuffix(resStr, "p") {
        var digits := TrimSuffix(resStr, "p");
        assert digits == resStr[..|resStr| - 1];
        assert g == LabelGain(Go, digits);
        var parsed := GoAtoi(digits);
        if parsed.Some? {
          added := [parsed.value];
        }
      } else {
        assert g == Skip;
      }
    } else {
      assert g == Skip;
    }
  }

  /** The body of the Python loop for one key: the resolution it appends,
      or whether int() raised. */
  method PyKeyResolution(k: string) returns (added: seq<int>, raised: bool)
    ensures raised <==> Contribution(Python, k).Raise?
    ensures !raised ==> added == Added(Contribution(Python, k))
  {
    ghost var g := Contribution(Python, k);
    added, raised := [], false;
    if HasSuffix(k, PlaylistName) {
      var resStr := FirstPiece(k, '/');
      if HasSuffix(resStr, "p") {
        var digits := resStr[..|resStr| - 1];
        assert g == LabelGain(Python, digits);
        var parsed := PyInt(digits);
        if parsed.None? {
          raised := true;
        } else {
          added := [parsed.value];
        }
      } else {
        assert g == Skip;
      }
    } else {
      assert g == Skip;
    }
  }

  /** The loop that fills the key map (Go) or the set comprehension (Python). */
  method CollectKeys(objects: seq<string>, prefix: string) returns (keys: set<string>)
    ensures keys == KeySet(objects, prefix)
  {
    keys := {};
    var i := 0;
    while i < |objects|
      invariant 0 <= i <= |objects|
      invariant keys == KeySet(objects[..i], prefix)
    {
      assert objects[..i + 1] == objects[..i] + [objects[i]];
      keys := keys + {TrimPrefix(objects[i], prefix)};
      i := i + 1;
    }
    assert objects[..i] == objects;
  }
}
