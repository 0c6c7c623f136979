/** The web server of the camera viewer (main.go): the access decision of
    its Basic-authentication wrapper and the virtual year/month/day
    hierarchy it builds over a flat `YYYY/MM/DD/name.mp4` key space, with
    the per-day video listing and the latest video of today.

    The object store is a total function from a listing request to its
    answer, so each handler's contract can say which request it issues and
    what it makes of the answer. */
module Server {
  import opened Wrappers
  import opened Strings
  import opened Dates

  // ---------------------------------------------------------------------
  // Access control (basicAuth).

  datatype Credentials = Credentials(user: string, password: string)

  datatype Access = Granted | Denied(wwwAuthenticate: string, status: int)

  const Challenge := "Basic realm=\"Camera Viewer\""
  const Unauthorized := 401

  /** The decision basicAuth takes for one request, given the configured
      USERNAME and PASSWORD and the Basic credentials the request carries
      (None when it carries none or they do not parse). */
  function Authorize(username: string, password: string, presented: Option<Credentials>): (a: Access)
    ensures username == "" || password == "" ==> a == Granted
    ensures username != "" && password != "" ==>
      (a == Granted <==> presented == Some(Credentials(username, password)))
    ensures a.Denied? ==> a == Denied(Challenge, Unauthorized)
  {
    if username == "" || password == "" then Granted
    else if presented.None? || presented.value.user != username || presented.value.password != password
    then Denied(Challenge, Unauthorized)
    else Granted
  }

  /** With authentication configured, whoever is granted access presented
      exactly the configured pair, and a request is granted or denied
      whatever else it carries only through that pair. */
  lemma AuthorizeNeedsExactPair(username: string, password: string, user: string, pass: string)
    requires username != "" && password != ""
    ensures Authorize(username, password, Some(Credentials(user, pass))) == Granted
            <==> user == username && pass == password
    ensures Authorize(username, password, None).Denied?
  {
  }

  // ---------------------------------------------------------------------
  // The object store as the handlers see it.

  /** One element of a listing's Contents.  The handlers dereference the
      key and the size without a nil check, so both are plain values. */
  datatype Entry = Entry(key: string, size: int, lastModified: Option<int>, storageClass: string)

  datatype ListRequest = ListRequest(bucket: string, prefix: string, delimiter: Option<string>)

  /** The answer to one ListObjectsV2 call (its first page). */
  datatype Listing = ListFailed | Page(contents: seq<Entry>, commonPrefixes: seq<string>)

  type Store = ListRequest -> Listing

  datatype Response<T> = Ok(body: T) | BadRequest(message: string) | ServerError(message: string)

  const BucketMissing := "BUCKET_NAME environment variable is not set"
  const ListFailure := "Failed to list objects"

  // ---------------------------------------------------------------------
  // Partition names from common prefixes (/list-years, /list-months,
  // /list-days).

  /** The name a common prefix stands for one level below `parent`:
      `parent` trimmed from the front when present, then one trailing '/'
      trimmed. */
  function PartitionName(commonPrefix: string, parent: string): string {
    TrimSuffix(TrimPrefix(commonPrefix, parent), "/")
  }

  function PartitionNames(commonPrefixes: seq<string>, parent: string): set<string> {
    set p | p in commonPrefixes :: PartitionName(p, parent)
  }

  /** The two loops every listing handler runs: names go into a
      map[string]bool, then the map's keys are appended to a slice in the
      map's (unspecified) iteration order. */
  method CollectPartitions(commonPrefixes: seq<string>, parent: string) returns (names: seq<string>)
    ensures Distinct(names)
    ensures forall n :: n in names <==> n in PartitionNames(commonPrefixes, parent)
    ensures |names| <= |commonPrefixes|
  {
    var seen: map<string, bool> := map[];
    for i := 0 to |commonPrefixes|
      invariant seen.Keys == PartitionNames(commonPrefixes[..i], parent)
    {
      assert commonPrefixes[..i + 1] == commonPrefixes[..i] + [commonPrefixes[i]];
      seen := seen[PartitionName(commonPrefixes[i], parent) := true];
    }
    assert commonPrefixes[..|commonPrefixes|] == commonPrefixes;
    PartitionNamesBound(commonPrefixes, parent);
    names := MapKeys(seen);
  }

  /** `for k := range m { s = append(s, k) }`: every key once, in an order
      the model leaves open. */
  method MapKeys(m: map<string, bool>) returns (keys: seq<string>)
    ensures Distinct(keys)
    ensures forall k :: k in keys <==> k in m
    ensures |keys| == |m|
  {
    keys := [];
    var rest := m.Keys;
    while rest != {}
      invariant rest <= m.Keys
      invariant forall k :: k in keys <==> k in m && k !in rest
      invariant Distinct(keys)
      invariant |keys| + |rest| == |m|
      decreases |rest|
    {
      var k :| k in rest;
      keys := keys + [k];
      rest := rest - {k};
    }
  }

  lemma {:induction false} PartitionNamesBound(commonPrefixes: seq<string>, parent: string)
    ensures |PartitionNames(commonPrefixes, parent)| <= |commonPrefixes|
    decreases |commonPrefixes|
  {
    if commonPrefixes != [] {
      var last := |commonPrefixes| - 1;
      var front := commonPrefixes[..last];
      assert commonPrefixes == front + [commonPrefixes[last]];
      assert PartitionNames(commonPrefixes, parent)
          == PartitionNames(front, parent) + {PartitionName(commonPrefixes[last], parent)};
      PartitionNamesBound(front, parent);
    }
  }

  /** When the store groups keys under `parent` by their next segment, each
      common prefix is `parent + segment + "/"`, and the handler recovers
      exactly the set of segments. */
  lemma GroupedSegmentsRecovered(parent: string, segments: seq<string>)
    ensures PartitionNames(seq(|segments|, i requires 0 <= i < |segments| => parent + segments[i] + "/"), parent)
         == set s | s in segments
  {
    var cps := seq(|segments|, i requires 0 <= i < |segments| => parent + segments[i] + "/");
    forall i | 0 <= i < |segments|
      ensures PartitionName(cps[i], parent) == segments[i]
    {
      assert cps[i] == parent + (segments[i] + "/");
      assert HasPrefix(cps[i], parent);
      assert TrimPrefix(cps[i], parent) == segments[i] + "/";
    }
    forall s | s in segments
      ensures s in PartitionNames(cps, parent)
    {
      var i :| 0 <= i < |segments| && segments[i] == s;
      assert cps[i] in cps;
    }
  }

  datatype YearsBody = YearsBody(years: seq<string>)
  datatype MonthsBody = MonthsBody(year: string, months: seq<string>)
  datatype DaysBody = DaysBody(year: string, month: string, days: seq<string>)

  /** /list-years: a delimited listing of the whole bucket. */
  method ListYears(bucket: string, store: Store) returns (resp: Response<YearsBody>)
    ensures bucket == "" ==> resp == ServerError(BucketMissing)
    ensures bucket != "" ==>
      var answer := store(ListRequest(bucket, "", Some("/")));
      (answer.ListFailed? ==> resp == ServerError(ListFailure)) &&
      (answer.Page? ==>
        resp.Ok? && Distinct(resp.body.years) &&
        forall y :: y in resp.body.years <==> y in PartitionNames(answer.commonPrefixes, ""))
  {
    if bucket == "" {
      return ServerError(BucketMissing);
    }
    var answer := store(ListRequest(bucket, "", Some("/")));
    if answer.ListFailed? {
      return ServerError(ListFailure);
    }
    var years := CollectPartitions(answer.commonPrefixes, "");
    resp := Ok(YearsBody(years));
  }

  /** /list-months?year=Y: a delimited listing under `Y/`. */
  method ListMonths(bucket: string, year: string, store: Store) returns (resp: Response<MonthsBody>)
    ensures bucket == "" ==> resp == ServerError(BucketMissing)
    ensures bucket != "" && year == "" ==> resp.BadRequest?
    ensures bucket != "" && year != "" ==>
      var answer := store(ListRequest(bucket, year + "/", Some("/")));
      (answer.ListFailed? ==> resp == ServerError(ListFailure)) &&
      (answer.Page? ==>
        resp.Ok? && resp.body.year == year && Distinct(resp.body.months) &&
        forall m :: m in resp.body.months <==> m in PartitionNames(answer.commonPrefixes, year + "/"))
  {
    if bucket == "" {
      return ServerError(BucketMissing);
    }
    if year == "" {
      return BadRequest("year query parameter is required");
    }
    var answer := store(ListRequest(bucket, year + "/", Some("/")));
    if answer.ListFailed? {
      return ServerError(ListFailure);
    }
    var months := CollectPartitions(answer.commonPrefixes, year + "/");
    resp := Ok(MonthsBody(year, months));
  }

  /** /list-days?year=Y&month=M: a delimited listing under `Y/M/`. */
  method ListDays(bucket: string, year: string, month: string, store: Store) returns (resp: Response<DaysBody>)
    ensures bucket == "" ==> resp == ServerError(BucketMissing)
    ensures bucket != "" && (year == "" || month == "") ==> resp.BadRequest?
    ensures bucket != "" && year != "" && month != "" ==>
      var parent := year + "/" + month + "/";
      var answer := store(ListRequest(bucket, parent, Some("/")));
      (answer.ListFailed? ==> resp == ServerError(ListFailure)) &&
      (answer.Page? ==>
        resp.Ok? && resp.body.year == year && resp.body.month == month &&
        Distinct(resp.body.days) &&
        forall d :: d in resp.body.days <==> d in PartitionNames(answer.commonPrefixes, parent))
  {
    if bucket == "" {
      return ServerError(BucketMissing);
    }
    if year == "" || month == "" {
      return BadRequest("year and month query parameters are required");
    }
    var parent := year + "/" + month + "/";
    var answer := store(ListRequest(bucket, parent, Some("/")));
    if answer.ListFailed? {
      return ServerError(ListFailure);
    }
    var days := CollectPartitions(answer.commonPrefixes, parent);
    resp := Ok(DaysBody(year, month, days));
  }

  // ---------------------------------------------------------------------
  // Videos of one day (/list-files-by-date).

  datatype FileInfo = FileInfo(key: string, filename: string, size: int,
                               lastModified: Option<int>, storageClass: string)

  function InfoOf(e: Entry): FileInfo {
    FileInfo(e.key, Base(e.key), e.size, e.lastModified, e.storageClass)
  }

  /** The entries whose key ends in ".mp4", in listing order. */
  function Videos(entries: seq<Entry>): seq<Entry>
    decreases |entries|
  {
    if entries == [] then []
    else
      var last := entries[|entries| - 1];
      Videos(entries[..|entries| - 1]) + (if IsVideo(last.key) then [last] else [])
  }

  /** Exactly the video entries are kept. */
  lemma {:induction false} VideosMembers(entries: seq<Entry>)
    ensures forall e :: e in Videos(entries) <==> e in entries && IsVideo(e.key)
    decreases |entries|
  {
    if entries != [] {
      var front := entries[..|entries| - 1];
      assert entries == front + [entries[|entries| - 1]];
      VideosMembers(front);
    }
  }

  /** Filtering commutes with concatenation, so the relative order of the
      listing is kept. */
  lemma {:induction false} VideosConcat(a: seq<Entry>, b: seq<Entry>)
    ensures Videos(a + b) == Videos(a) + Videos(b)
    decreases |b|
  {
    if b == [] {
      assert a + b == a;
    } else {
      var b' := b[..|b| - 1];
      assert (a + b)[..|a + b| - 1] == a + b';
      VideosConcat(a, b');
    }
  }

  /** The loop that appends a file record for every ".mp4" entry. */
  method VideoFiles(entries: seq<Entry>) returns (files: seq<FileInfo>)
    ensures |files| == |Videos(entries)|
    ensures forall i :: 0 <= i < |files| ==> files[i] == InfoOf(Videos(entries)[i])
  {
    files := [];
    for i := 0 to |entries|
      invariant |files| == |Videos(entries[..i])|
      invariant forall k :: 0 <= k < |files| ==> files[k] == InfoOf(Videos(entries[..i])[k])
    {
      assert entries[..i + 1][..i] == entries[..i];
      if IsVideo(entries[i].key) {
        files := files + [InfoOf(entries[i])];
      }
    }
    assert entries[..|entries|] == entries;
  }

  datatype FilesBody = FilesBody(date: string, files: seq<FileInfo>, count: int)

  /** /list-files-by-date?year=Y&month=M&day=D: an undelimited listing
      under `Y/M/D/`, filtered to videos. */
  method ListFilesByDate(bucket: string, year: string, month: string, day: string, store: Store)
    returns (resp: Response<FilesBody>)
    ensures bucket == "" ==> resp == ServerError(BucketMissing)
    ensures bucket != "" && (year == "" || month == "" || day == "") ==> resp.BadRequest?
    ensures bucket != "" && year != "" && month != "" && day != "" ==>
      var answer := store(ListRequest(bucket, year + "/" + month + "/" + day + "/", None));
      (answer.ListFailed? ==> resp == ServerError(ListFailure)) &&
      (answer.Page? ==>
        resp.Ok? &&
        resp.body.date == year + "-" + month + "-" + day &&
        resp.body.count == |resp.body.files| == |Videos(answer.contents)| &&
        forall i :: 0 <= i < |resp.body.files| ==> resp.body.files[i] == InfoOf(Videos(answer.contents)[i]))
  {
    if bucket == "" {
      return ServerError(BucketMissing);
    }
    if year == "" || month == "" || day == "" {
      return BadRequest("year, month, and day query parameters are required");
    }
    var answer := store(ListRequest(bucket, year + "/" + month + "/" + day + "/", None));
    if answer.ListFailed? {
      return ServerError(ListFailure);
    }
    var files := VideoFiles(answer.contents);
    resp := Ok(FilesBody(year + "-" + month + "-" + day, files, |files|));
  }

  /** A video stored under a day's prefix is shown under its own name. */
  lemma FilenameOfDayKey(d: Date, name: string)
    requires '/' !in name && name != ""
    ensures Base(ScanPrefix(d) + name) == name
  {
    var dir := Padded(d.year, 4) + "/" + Padded(d.month, 2) + "/" + Padded(d.day, 2);
    var key := ScanPrefix(d) + name;
    assert key == dir + "/" + name;
    assert key[|key| - 1] == name[|name| - 1];
    LastSegmentAfterSlash(dir, name);
  }

  // ---------------------------------------------------------------------
  // Latest video of today (/latest-video).

  /** The entry the scan settles on: a video entry replaces the current
      choice when there is none yet or its key is strictly greater. */
  function Latest(entries: seq<Entry>): (r: Option<Entry>)
    ensures r.Some? ==> r.value in entries && IsVideo(r.value.key)
    decreases |entries|
  {
    if entries == [] then None
    else
      var best := Latest(entries[..|entries| - 1]);
      var e := entries[|entries| - 1];
      if IsVideo(e.key) && (best.None? || Less(best.value.key, e.key)) then Some(e) else best
  }

  /** Something is found exactly when the listing holds a video. */
  lemma {:induction false} LatestFound(entries: seq<Entry>)
    ensures Latest(entries).Some? <==> exists i :: 0 <= i < |entries| && IsVideo(entries[i].key)
    decreases |entries|
  {
    if entries != [] {
      var front := entries[..|entries| - 1];
      LatestFound(front);
      if Latest(front).Some? {
        var i :| 0 <= i < |front| && IsVideo(front[i].key);
        assert entries[i] == front[i];
      }
      forall i | 0 <= i < |front| && IsVideo(entries[i].key)
        ensures IsVideo(front[i].key)
      {
        assert entries[i] == front[i];
      }
    }
  }

  /** The chosen entry carries the greatest video key of the listing, and
      it is the first entry with that key. */
  lemma {:induction false} LatestIsGreatest(entries: seq<Entry>)
    requires Latest(entries).Some?
    ensures var e := Latest(entries).value;
      (forall i :: 0 <= i < |entries| && IsVideo(entries[i].key) ==>
        entries[i].key == e.key || Less(entries[i].key, e.key)) &&
      (exists j :: 0 <= j < |entries| && entries[j] == e &&
        forall i :: 0 <= i < j ==> entries[i].key != e.key)
    decreases |entries|, 1
  {
    var best := Latest(entries[..|entries| - 1]);
    var last := entries[|entries| - 1];
    if IsVideo(last.key) && (best.None? || Less(best.value.key, last.key)) {
      LastBecomesLatest(entries);
    } else {
      EarlierStaysLatest(entries);
    }
  }

  /** The case where the last entry replaces the choice so far. */
  lemma {:induction false} LastBecomesLatest(entries: seq<Entry>)
    requires entries != []
    requires var best := Latest(entries[..|entries| - 1]);
      var last := entries[|entries| - 1];
      IsVideo(last.key) && (best.None? || Less(best.value.key, last.key))
    ensures Latest(entries) == Some(entries[|entries| - 1])
    ensures var e := entries[|entries| - 1];
      (forall i :: 0 <= i < |entries| - 1 && IsVideo(entries[i].key) ==> Less(entries[i].key, e.key)) &&
      (forall i :: 0 <= i < |entries| - 1 ==> entries[i].key != e.key)
    decreases |entries|, 0
  {
    var front := entries[..|entries| - 1];
    var best := Latest(front);
    var e := entries[|entries| - 1];
    forall i | 0 <= i < |front| && IsVideo(entries[i].key)
      ensures Less(entries[i].key, e.key)
    {
      assert entries[i] == front[i];
      LatestFound(front);
      LatestIsGreatest(front);
      if entries[i].key != best.value.key {
        LessTransitive(entries[i].key, best.value.key, e.key);
      }
    }
    forall i | 0 <= i < |front|
      ensures entries[i].key != e.key
    {
      if entries[i].key == e.key {
        assert IsVideo(entries[i].key);
        LessIrreflexive(e.key);
      }
    }
  }

  /** The case where the choice so far is kept. */
  lemma {:induction false} EarlierStaysLatest(entries: seq<Entry>)
    requires Latest(entries).Some?
    requires var best := Latest(entries[..|entries| - 1]);
      var last := entries[|entries| - 1];
      !(IsVideo(last.key) && (best.None? || Less(best.value.key, last.key)))
    ensures var e := Latest(entries).value;
      (forall i :: 0 <= i < |entries| && IsVideo(entries[i].key) ==>
        entries[i].key == e.key || Less(entries[i].key, e.key)) &&
      (exists j :: 0 <= j < |entries| && entries[j] == e &&
        forall i :: 0 <= i < j ==> entries[i].key != e.key)
    decreases |entries|, 0
  {
    var front := entries[..|entries| - 1];
    var last := entries[|entries| - 1];
    var e := Latest(entries).value;
    assert Latest(front) == Some(e);
    LatestIsGreatest(front);
    var j :| 0 <= j < |front| && front[j] == e && forall i :: 0 <= i < j ==> front[i].key != e.key;
    assert entries[j] == e;
    forall i | 0 <= i < j
      ensures entries[i].key != e.key
    {
      assert entries[i] == front[i];
    }
    forall i | 0 <= i < |entries| && IsVideo(entries[i].key)
      ensures entries[i].key == e.key || Less(entries[i].key, e.key)
    {
      if i < |front| {
        assert entries[i] == front[i];
      } else if entries[i].key != e.key {
        LessTotal(entries[i].key, e.key);
      }
    }
  }

  /** Entries that are not videos never affect the choice. */
  lemma {:induction false} LatestIgnoresOthers(entries: seq<Entry>)
    ensures Latest(entries) == Latest(Videos(entries))
    decreases |entries|
  {
    if entries != [] {
      var front := entries[..|entries| - 1];
      var last := entries[|entries| - 1];
      LatestIgnoresOthers(front);
      if IsVideo(last.key) {
        var v := Videos(front) + [last];
        assert Videos(entries) == v;
        assert v[..|v| - 1] == Videos(front);
      } else {
        assert Videos(entries) == Videos(front);
      }
    }
  }

  /** The scan over a day's listing, with latestKey == "" standing for
      "nothing chosen yet" as in the handler. */
  method ScanLatest(entries: seq<Entry>) returns (latest: Option<FileInfo>)
    ensures latest.Some? <==> Latest(entries).Some?
    ensures latest.Some? ==> latest.value == InfoOf(Latest(entries).value)
  {
    var latestKey := "";
    latest := None;
    for i := 0 to |entries|
      invariant latest.Some? <==> Latest(entries[..i]).Some?
      invariant latest.Some? ==> latest.value == InfoOf(Latest(entries[..i]).value)
      invariant latestKey == if latest.Some? then latest.value.key else ""
    {
      assert entries[..i + 1][..i] == entries[..i];
      var key := entries[i].key;
      if IsVideo(key) {
        if latestKey == "" || Less(latestKey, key) {
          latestKey := key;
          latest := Some(InfoOf(entries[i]));
        }
      }
    }
    assert entries[..|entries|] == entries;
  }

  datatype LatestBody = LatestBody(date: string, latestVideo: Option<FileInfo>)

  /** /latest-video: an undelimited listing under today's zero-padded
      prefix; `found` in the response is latestVideo.Some?. */
  method LatestVideo(bucket: string, today: Date, store: Store) returns (resp: Response<LatestBody>)
    ensures bucket == "" ==> resp == ServerError(BucketMissing)
    ensures bucket != "" ==>
      var answer := store(ListRequest(bucket, ScanPrefix(today), None));
      (answer.ListFailed? ==> resp == ServerError(ListFailure)) &&
      (answer.Page? ==>
        resp.Ok? && resp.body.date == DateLabel(today) &&
        (resp.body.latestVideo.Some? <==> exists i :: 0 <= i < |answer.contents| && IsVideo(answer.contents[i].key)) &&
        (resp.body.latestVideo.Some? ==>
          var v := resp.body.latestVideo.value;
          IsVideo(v.key) &&
          (exists j :: 0 <= j < |answer.contents| && InfoOf(answer.contents[j]) == v) &&
          forall i :: 0 <= i < |answer.contents| && IsVideo(answer.contents[i].key) ==>
            answer.contents[i].key == v.key || Less(answer.contents[i].key, v.key)))
  {
    if bucket == "" {
      return ServerError(BucketMissing);
    }
    var answer := store(ListRequest(bucket, ScanPrefix(today), None));
    if answer.ListFailed? {
      return ServerError(ListFailure);
    }
    var latest := ScanLatest(answer.contents);
    LatestFound(answer.contents);
    if latest.Some? {
      LatestIsGreatest(answer.contents);
    }
    resp := Ok(LatestBody(DateLabel(today), latest));
  }
}
