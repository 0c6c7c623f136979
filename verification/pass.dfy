/** One run of the notifier (the body of `main` in
    discord-notifier/main.go): list today's and yesterday's partitions,
    announce every ".mp4" object the ledger does not know yet, record each
    announcement that went through, then prune the ledger.

    What the outside world answers is an input: each listed object comes
    with the outcome of its ledger lookup, of its webhook call and of its
    ledger insert (a `Probe`), and each date's listing may fail as a whole.
    The pass is specified by a fold over those inputs (`Pass`); `RunPass`
    is the loop, proved to compute it, and the lemmas state what the fold
    guarantees. */
module NotifierPass {
  import opened Wrappers
  import opened Strings
  import opened Dates
  import opened Notifier
  import opened Ledger

  /** An element of a listing's Contents; the SDK's fields are pointers. */
  datatype ListedObject = ListedObject(key: Option<string>, size: Option<Int64>, lastModified: Option<int>)

  /** A listed object and what the ledger and the webhook answer for it. */
  datatype Probe = Probe(obj: ListedObject, lookupFails: bool, send: SendOutcome, insertFails: bool)

  datatype Listing = ListError | Listed(probes: seq<Probe>)

  /** One webhook call of the pass and whether it was delivered. */
  datatype Attempt = Attempt(message: Notification, delivered: bool)

  datatype PassState = PassState(rows: map<string, int>, attempts: seq<Attempt>, recorded: seq<string>)

  /** The key the pass considers for an object: present and ending in
      ".mp4". */
  function VideoKey(obj: ListedObject): Option<string> {
    if obj.key.Some? && IsVideo(obj.key.value) then obj.key else None
  }

  /** A nil size counts as 0 bytes, a nil timestamp as the current time. */
  function SizeOf(obj: ListedObject): Int64 {
    if obj.size.Some? then obj.size.value else 0
  }

  function StampOf(obj: ListedObject, now: int): int {
    if obj.lastModified.Some? then obj.lastModified.value else now
  }

  /** One object: skip it unless it is a video whose lookup succeeds and
      says "not posted"; otherwise send, and record the key only when the
      webhook answered 2xx and the insert succeeded. */
  function Step(st: PassState, p: Probe, now: int): PassState {
    match VideoKey(p.obj)
    case None => st
    case Some(k) =>
      if p.lookupFails || k in st.rows then st
      else
        var message := Compose(k, SizeOf(p.obj), StampOf(p.obj, now));
        var delivered := Delivered(p.send);
        if delivered && !p.insertFails then
          PassState(st.rows[k := now], st.attempts + [Attempt(message, true)], st.recorded + [k])
        else
          st.(attempts := st.attempts + [Attempt(message, delivered)])
  }

  function ScanObjects(st: PassState, probes: seq<Probe>, now: int): PassState
    decreases |probes|
  {
    if probes == [] then st
    else Step(ScanObjects(st, probes[..|probes| - 1], now), probes[|probes| - 1], now)
  }

  /** A date whose listing failed is skipped. */
  function ScanListing(st: PassState, listing: Listing, now: int): PassState {
    match listing
    case ListError => st
    case Listed(probes) => ScanObjects(st, probes, now)
  }

  function ScanDates(st: PassState, listings: seq<Listing>, now: int): PassState
    decreases |listings|
  {
    if listings == [] then st
    else ScanListing(ScanDates(st, listings[..|listings| - 1], now), listings[|listings| - 1], now)
  }

  /** The scan of a whole pass, starting from the ledger's rows. */
  function Pass(rows: map<string, int>, listings: seq<Listing>, now: int): PassState {
    ScanDates(PassState(rows, [], []), listings, now)
  }

  /** The ledger after the cleanup that ends a pass; a failed cleanup is
      only logged. */
  function AfterCleanup(rows: map<string, int>, now: int, cleanupFails: bool): map<string, int> {
    if cleanupFails then rows else Retained(rows, now)
  }

  // ---------------------------------------------------------------------
  // The invariant of the scan.

  /** How a state relates to the ledger `base` the pass started from: the
      old rows are all still there, unchanged; every other row is a key
      recorded in this pass, at `now`, once; every recorded key was
      delivered; and every webhook call was for a video not in `base`. */
  ghost predicate Accounts(base: map<string, int>, st: PassState, now: int) {
    (forall k :: k in st.rows <==> k in base || k in st.recorded) &&
    (forall k :: k in base ==> k in st.rows && st.rows[k] == base[k]) &&
    (forall k :: k in st.recorded ==> k !in base && k in st.rows && st.rows[k] == now) &&
    Distinct(st.recorded) &&
    (forall k :: k in st.recorded ==> DeliveredFor(st, k)) &&
    (forall a :: a in st.attempts ==> IsVideo(a.message.key) && a.message.key !in base)
  }

  /** Some webhook call of the pass for key `k` was delivered. */
  ghost predicate DeliveredFor(st: PassState, k: string) {
    exists a :: a in st.attempts && a.delivered && a.message.key == k
  }

  lemma StepAccounts(base: map<string, int>, st: PassState, p: Probe, now: int)
    requires Accounts(base, st, now)
    ensures Accounts(base, Step(st, p, now), now)
  {
    var key := VideoKey(p.obj);
    if key.None? || p.lookupFails || key.value in st.rows {
      assert Step(st, p, now) == st;
    } else {
      var k := key.value;
      var message := Compose(k, SizeOf(p.obj), StampOf(p.obj, now));
      assert message.key == k;
      if Delivered(p.send) && !p.insertFails {
        assert Step(st, p, now) == PassState(st.rows[k := now], st.attempts + [Attempt(message, true)], st.recorded + [k]);
        RecordAccounts(base, st, k, message, now);
      } else {
        assert Step(st, p, now) == st.(attempts := st.attempts + [Attempt(message, Delivered(p.send))]);
        AttemptAccounts(base, st, Attempt(message, Delivered(p.send)), now);
      }
    }
  }

  /** A call for a new video that records nothing keeps the invariant. */
  lemma AttemptAccounts(base: map<string, int>, st: PassState, attempt: Attempt, now: int)
    requires Accounts(base, st, now)
    requires IsVideo(attempt.message.key) && attempt.message.key !in base
    ensures Accounts(base, st.(attempts := st.attempts + [attempt]), now)
  {
    var st' := st.(attempts := st.attempts + [attempt]);
    forall j | j in st'.recorded
      ensures DeliveredFor(st', j)
    {
      var a :| a in st.attempts && a.delivered && a.message.key == j;
      assert a in st'.attempts;
    }
  }

  /** Recording a new video after a delivered call keeps the invariant. */
  lemma RecordAccounts(base: map<string, int>, st: PassState, k: string, message: Notification, now: int)
    requires Accounts(base, st, now)
    requires k !in st.rows && message.key == k && IsVideo(k)
    ensures Accounts(base, PassState(st.rows[k := now], st.attempts + [Attempt(message, true)], st.recorded + [k]), now)
  {
    var st' := PassState(st.rows[k := now], st.attempts + [Attempt(message, true)], st.recorded + [k]);
    forall j | j in st'.recorded
      ensures DeliveredFor(st', j)
    {
      if j in st.recorded {
        var a :| a in st.attempts && a.delivered && a.message.key == j;
        assert a in st'.attempts;
      } else {
        assert st'.attempts[|st'.attempts| - 1].message.key == j;
      }
    }
  }

  lemma {:induction false} ScanObjectsAccounts(base: map<string, int>, st: PassState, probes: seq<Probe>, now: int)
    requires Accounts(base, st, now)
    ensures Accounts(base, ScanObjects(st, probes, now), now)
    decreases |probes|
  {
    if probes != [] {
      ScanObjectsAccounts(base, st, probes[..|probes| - 1], now);
      StepAccounts(base, ScanObjects(st, probes[..|probes| - 1], now), probes[|probes| - 1], now);
    }
  }

  lemma {:induction false} ScanDatesAccounts(base: map<string, int>, st: PassState, listings: seq<Listing>, now: int)
    requires Accounts(base, st, now)
    ensures Accounts(base, ScanDates(st, listings, now), now)
    decreases |listings|
  {
    if listings != [] {
      var front := ScanDates(st, listings[..|listings| - 1], now);
      ScanDatesAccounts(base, st, listings[..|listings| - 1], now);
      if listings[|listings| - 1].Listed? {
        ScanObjectsAccounts(base, front, listings[|listings| - 1].probes, now);
      }
    }
  }

  lemma PassAccounts(rows: map<string, int>, listings: seq<Listing>, now: int)
    ensures Accounts(rows, Pass(rows, listings, now), now)
  {
    ScanDatesAccounts(rows, PassState(rows, [], []), listings, now);
  }

  // ---------------------------------------------------------------------
  // What a pass guarantees.

  /** One object's decision: a webhook call is made exactly when the key is
      present, ends in ".mp4", its lookup succeeds and the ledger does not
      hold it; the key is recorded exactly when, in addition, the webhook
      answered 2xx and the insert succeeded.  Nothing else changes. */
  lemma StepDecision(st: PassState, p: Probe, now: int)
    ensures var st' := Step(st, p, now);
      var sends := p.obj.key.Some? && IsVideo(p.obj.key.value) && !p.lookupFails
                   && p.obj.key.value !in st.rows;
      (sends <==> |st'.attempts| == |st.attempts| + 1) &&
      (!sends ==> st' == st) &&
      (sends ==> st'.attempts[..|st.attempts|] == st.attempts &&
                 st'.attempts[|st.attempts|] == Attempt(Compose(p.obj.key.value, SizeOf(p.obj), StampOf(p.obj, now)),
                                                         Delivered(p.send))) &&
      (st'.recorded != st.recorded <==> sends && Delivered(p.send) && !p.insertFails) &&
      (st'.recorded != st.recorded ==> st'.recorded == st.recorded + [p.obj.key.value] &&
                                       st'.rows == st.rows[p.obj.key.value := now]) &&
      (st'.recorded == st.recorded ==> st'.rows == st.rows)
  {
  }

  /** No record without a delivered notification: a key the pass adds to
      the ledger was announced by a webhook call that answered 2xx, at
      `now`; keys the ledger held before keep their rows. */
  lemma NoRecordWithoutDelivery(rows: map<string, int>, listings: seq<Listing>, now: int)
    ensures var st := Pass(rows, listings, now);
      (forall k :: k in rows ==> k in st.rows && st.rows[k] == rows[k]) &&
      (forall k :: k in st.rows && k !in rows ==>
        st.rows[k] == now && exists a :: a in st.attempts && a.delivered && a.message.key == k)
  {
    PassAccounts(rows, listings, now);
    var st := Pass(rows, listings, now);
    forall k | k in st.rows && k !in rows
      ensures exists a :: a in st.attempts && a.delivered && a.message.key == k
    {
      assert k in st.recorded;
      assert DeliveredFor(st, k);
    }
  }

  /** A webhook call is made only for a ".mp4" key the ledger did not hold
      when the pass started. */
  lemma SendsOnlyNewVideos(rows: map<string, int>, listings: seq<Listing>, now: int)
    ensures forall a :: a in Pass(rows, listings, now).attempts ==>
      IsVideo(a.message.key) && a.message.key !in rows
  {
    PassAccounts(rows, listings, now);
  }

  lemma {:induction false} DistinctCardinality(s: seq<string>)
    requires Distinct(s)
    ensures |set x | x in s| == |s|
    decreases |s|
  {
    if s != [] {
      var front := s[..|s| - 1];
      assert (set x | x in s) == (set x | x in front) + {s[|s| - 1]};
      assert s[|s| - 1] !in front;
      DistinctCardinality(front);
    }
  }

  /** newVideosFound counts the rows the pass added: it is the growth of
      the ledger, and each recorded key is recorded once. */
  lemma NewVideosFoundIsGrowth(rows: map<string, int>, listings: seq<Listing>, now: int)
    ensures var st := Pass(rows, listings, now);
      Distinct(st.recorded) && |st.rows| == |rows| + |st.recorded|
  {
    PassAccounts(rows, listings, now);
    var st := Pass(rows, listings, now);
    var added := set x | x in st.recorded;
    assert st.rows.Keys == rows.Keys + added;
    assert rows.Keys !! added;
    DistinctCardinality(st.recorded);
  }

  // ---------------------------------------------------------------------
  // Per-date isolation.

  lemma {:induction false} ScanDatesConcat(st: PassState, a: seq<Listing>, b: seq<Listing>, now: int)
    ensures ScanDates(st, a + b, now) == ScanDates(ScanDates(st, a, now), b, now)
    decreases |b|
  {
    if b == [] {
      assert a + b == a;
    } else {
      var b' := b[..|b| - 1];
      assert (a + b)[..|a + b| - 1] == a + b';
      ScanDatesConcat(st, a, b', now);
    }
  }

  /** A date whose listing fails is skipped and the other dates are
      processed as if it were not there. */
  lemma ListErrorSkipsOnlyThatDate(st: PassState, before: seq<Listing>, after: seq<Listing>, now: int)
    ensures ScanDates(st, before + [ListError] + after, now) == ScanDates(st, before + after, now)
  {
    ScanDatesConcat(st, before + [ListError], after, now);
    ScanDatesConcat(st, before, [ListError], now);
    ScanDatesConcat(st, before, after, now);
    assert [ListError][..0] == [];
  }

  // ---------------------------------------------------------------------
  // Idempotence.

  /** The ".mp4" keys the listings that did not fail show. */
  ghost function VideoKeys(listings: seq<Listing>): set<string> {
    set i, j | 0 <= i < |listings| && listings[i].Listed? && 0 <= j < |listings[i].probes|
                 && VideoKey(listings[i].probes[j].obj).Some?
             :: VideoKey(listings[i].probes[j].obj).value
  }

  ghost function ObjectVideoKeys(probes: seq<Probe>): set<string> {
    set j | 0 <= j < |probes| && VideoKey(probes[j].obj).Some? :: VideoKey(probes[j].obj).value
  }

  /** Every lookup, webhook call and insert for a video of the listings
      succeeds. */
  /** Every listed video whose key is not in `known` is looked up, sent
      and inserted without error. */
  ghost predicate NewVideosSucceed(listings: seq<Listing>, known: set<string>) {
    forall i, j | 0 <= i < |listings| && listings[i].Listed? && 0 <= j < |listings[i].probes|
      :: VideoKey(listings[i].probes[j].obj).Some? && VideoKey(listings[i].probes[j].obj).value !in known
         ==> Succeeds(listings[i].probes[j])
  }

  predicate Succeeds(p: Probe) {
    !p.lookupFails && Delivered(p.send) && !p.insertFails
  }

  lemma {:induction false} ScanObjectsCovers(st: PassState, probes: seq<Probe>, now: int, known: set<string>)
    requires known <= st.rows.Keys
    requires forall j :: 0 <= j < |probes| && VideoKey(probes[j].obj).Some? && VideoKey(probes[j].obj).value !in known
                         ==> Succeeds(probes[j])
    ensures st.rows.Keys + ObjectVideoKeys(probes) <= ScanObjects(st, probes, now).rows.Keys
    decreases |probes|
  {
    if probes != [] {
      var front := probes[..|probes| - 1];
      ScanObjectsCovers(st, front, now, known);
      assert ObjectVideoKeys(probes) <= ObjectVideoKeys(front) + ObjectVideoKeys([probes[|probes| - 1]]) by {
        forall k | k in ObjectVideoKeys(probes)
          ensures k in ObjectVideoKeys(front) + ObjectVideoKeys([probes[|probes| - 1]])
        {
          var j :| 0 <= j < |probes| && VideoKey(probes[j].obj).Some? && VideoKey(probes[j].obj).value == k;
          if j < |front| {
            assert front[j] == probes[j];
          } else {
            assert [probes[|probes| - 1]][0] == probes[j];
          }
        }
      }
    }
  }

  lemma {:induction false} ScanDatesCovers(st: PassState, listings: seq<Listing>, now: int, known: set<string>)
    requires known <= st.rows.Keys
    requires NewVideosSucceed(listings, known)
    ensures st.rows.Keys + VideoKeys(listings) <= ScanDates(st, listings, now).rows.Keys
    decreases |listings|
  {
    if listings != [] {
      var front := listings[..|listings| - 1];
      var last := listings[|listings| - 1];
      assert NewVideosSucceed(front, known) by {
        forall i, j | 0 <= i < |front| && front[i].Listed? && 0 <= j < |front[i].probes|
          && VideoKey(front[i].probes[j].obj).Some? && VideoKey(front[i].probes[j].obj).value !in known
          ensures Succeeds(front[i].probes[j])
        {
          assert front[i] == listings[i];
        }
      }
      ScanDatesCovers(st, front, now, known);
      var mid := ScanDates(st, front, now);
      if last.Listed? {
        forall j | 0 <= j < |last.probes| && VideoKey(last.probes[j].obj).Some?
          && VideoKey(last.probes[j].obj).value !in known
          ensures Succeeds(last.probes[j])
        {
          assert listings[|listings| - 1] == last;
        }
        ScanObjectsCovers(mid, last.probes, now, known);
      }
      forall k | k in VideoKeys(listings)
        ensures k in ScanDates(st, listings, now).rows
      {
        var i, j :| 0 <= i < |listings| && listings[i].Listed? && 0 <= j < |listings[i].probes|
                  && VideoKey(listings[i].probes[j].obj).Some? && VideoKey(listings[i].probes[j].obj).value == k;
        if i < |front| {
          assert front[i] == listings[i];
          assert k in VideoKeys(front);
          ScanListingGrows(mid, last, now);
        } else {
          assert k in ObjectVideoKeys(last.probes);
        }
      }
      ScanListingGrows(mid, last, now);
    }
  }

  lemma {:induction false} ScanObjectsGrows(st: PassState, probes: seq<Probe>, now: int)
    ensures st.rows.Keys <= ScanObjects(st, probes, now).rows.Keys
    decreases |probes|
  {
    if probes != [] {
      ScanObjectsGrows(st, probes[..|probes| - 1], now);
    }
  }

  lemma ScanListingGrows(st: PassState, listing: Listing, now: int)
    ensures st.rows.Keys <= ScanListing(st, listing, now).rows.Keys
  {
    if listing.Listed? {
      ScanObjectsGrows(st, listing.probes, now);
    }
  }

  /** When the ledger already holds every video key of the listings, a
      scan changes nothing and calls no webhook. */
  lemma {:induction false} ScanObjectsQuiet(st: PassState, probes: seq<Probe>, now: int)
    requires ObjectVideoKeys(probes) <= st.rows.Keys
    ensures ScanObjects(st, probes, now) == st
    decreases |probes|
  {
    if probes != [] {
      var front := probes[..|probes| - 1];
      var p := probes[|probes| - 1];
      assert ObjectVideoKeys(front) <= ObjectVideoKeys(probes) by {
        forall k | k in ObjectVideoKeys(front)
          ensures k in ObjectVideoKeys(probes)
        {
          var j :| 0 <= j < |front| && VideoKey(front[j].obj).Some? && VideoKey(front[j].obj).value == k;
          assert probes[j] == front[j];
        }
      }
      ScanObjectsQuiet(st, front, now);
      if VideoKey(p.obj).Some? {
        assert VideoKey(p.obj).value in ObjectVideoKeys(probes);
      }
    }
  }

  lemma {:induction false} ScanDatesQuiet(st: PassState, listings: seq<Listing>, now: int)
    requires VideoKeys(listings) <= st.rows.Keys
    ensures ScanDates(st, listings, now) == st
    decreases |listings|
  {
    if listings != [] {
      var front := listings[..|listings| - 1];
      var last := listings[|listings| - 1];
      assert VideoKeys(front) <= VideoKeys(listings) by {
        forall k | k in VideoKeys(front)
          ensures k in VideoKeys(listings)
        {
          var i, j :| 0 <= i < |front| && front[i].Listed? && 0 <= j < |front[i].probes|
                    && VideoKey(front[i].probes[j].obj).Some? && VideoKey(front[i].probes[j].obj).value == k;
          assert listings[i] == front[i];
        }
      }
      ScanDatesQuiet(st, front, now);
      if last.Listed? {
        assert ObjectVideoKeys(last.probes) <= VideoKeys(listings) by {
          forall k | k in ObjectVideoKeys(last.probes)
            ensures k in VideoKeys(listings)
          {
            var j :| 0 <= j < |last.probes| && VideoKey(last.probes[j].obj).Some?
                     && VideoKey(last.probes[j].obj).value == k;
            assert listings[|listings| - 1] == last;
          }
        }
        ScanObjectsQuiet(st, last.probes, now);
      }
    }
  }

  /** A second pass over listings that show no video the first pass did
      not see, after every lookup, send and insert of the first pass for a
      video not yet in the ledger succeeded, sends nothing and changes nothing.  The rows the first
      pass relied on must still be inside the retention window when it
      prunes (rows it adds always are). */
  lemma SecondPassSendsNothing(rows: map<string, int>, first: seq<Listing>, second: seq<Listing>,
                               now1: int, now2: int, cleanupFails: bool)
    requires NewVideosSucceed(first, rows.Keys)
    requires VideoKeys(second) <= VideoKeys(first)
    requires forall k :: k in rows && k in VideoKeys(first) ==> Recent(rows[k], now1)
    ensures var between := AfterCleanup(Pass(rows, first, now1).rows, now1, cleanupFails);
      Pass(between, second, now2) == PassState(between, [], [])
  {
    var st := Pass(rows, first, now1);
    ScanDatesCovers(PassState(rows, [], []), first, now1, rows.Keys);
    PassAccounts(rows, first, now1);
    var between := AfterCleanup(st.rows, now1, cleanupFails);
    forall k | k in VideoKeys(first)
      ensures k in between
    {
      assert k in st.rows;
      if k in rows {
        assert st.rows[k] == rows[k];
      } else {
        assert k in st.recorded;
      }
    }
    ScanDatesQuiet(PassState(between, [], []), second, now2);
  }

  /** A single listing scanned by a pass is that listing's objects scanned
      from the ledger's rows. */
  lemma PassOfOne(rows: map<string, int>, probes: seq<Probe>, now: int)
    ensures Pass(rows, [Listed(probes)], now) == ScanObjects(PassState(rows, [], []), probes, now)
  {
    var st := PassState(rows, [], []);
    assert [Listed(probes)][..0] == [];
    assert ScanDates(st, [], now) == st;
  }

  /** A failed send is retried by the next run: the key is not recorded
      the first time, the first run's cleanup cannot have added it, and the
      second run sends again and records it exactly once. */
  lemma RetryAfterFailedSend(rows: map<string, int>, obj: ListedObject, failed: SendOutcome,
                             ok: SendOutcome, now1: int, now2: int, cleanupFails: bool)
    requires VideoKey(obj).Some? && VideoKey(obj).value !in rows
    requires !Delivered(failed) && Delivered(ok)
    ensures var k := VideoKey(obj).value;
      var first := Pass(rows, [Listed([Probe(obj, false, failed, false)])], now1);
      var between := AfterCleanup(first.rows, now1, cleanupFails);
      var second := Pass(between, [Listed([Probe(obj, false, ok, false)])], now2);
      first.rows == rows && |first.attempts| == 1 && !first.attempts[0].delivered &&
      second.recorded == [k] && second.rows == between[k := now2] &&
      |second.attempts| == 1 && second.attempts[0].delivered
  {
    var p1 := Probe(obj, false, failed, false);
    var p2 := Probe(obj, false, ok, false);
    PassOfOne(rows, [p1], now1);
    assert [p1][..0] == [];
    var first := Step(PassState(rows, [], []), p1, now1);
    assert Pass(rows, [Listed([p1])], now1) == first;
    var between := AfterCleanup(first.rows, now1, cleanupFails);
    assert between.Keys <= rows.Keys;
    PassOfOne(between, [p2], now2);
    assert [p2][..0] == [];
    assert Pass(between, [Listed([p2])], now2) == Step(PassState(between, [], []), p2, now2);
  }

  // ---------------------------------------------------------------------
  // The loop itself.

  /** One object of a listing, as the loop body of `main` handles it: a
      ".mp4" key is looked up, and when the ledger does not have it the
      notification is sent and, on success, recorded.  `st` is the pass so
      far, whose rows are the ledger's. */
  method HandleObject(ledger: PostedVideos, p: Probe, now: int, ghost st: PassState)
    returns (attempt: Option<Attempt>, recordedKey: Option<string>)
    requires ledger.rows == st.rows
    modifies ledger
    ensures Step(st, p, now) ==
      PassState(ledger.rows, st.attempts + OptionSeq(attempt), st.recorded + OptionSeq(recordedKey))
  {
    attempt, recordedKey := None, None;
    var obj := p.obj;
    if obj.key.Some? && IsVideo(obj.key.value) {
      var key := obj.key.value;
      assert VideoKey(obj) == Some(key);
      var posted := ledger.IsPosted(key, p.lookupFails);
      if posted.Answer? && !posted.posted {
        var fileSize: Int64 := if obj.size.Some? then obj.size.value else 0;
        var lastModified := if obj.lastModified.Some? then obj.lastModified.value else now;
        var message, err := SendNotification(key, fileSize, lastModified, p.send);
        assert message == Compose(key, SizeOf(obj), StampOf(obj, now));
        attempt := Some(Attempt(message, err.None?));
        if err.None? {
          var markErr := ledger.MarkPosted(key, now, p.insertFails);
          if markErr.None? {
            recordedKey := Some(key);
            assert Step(st, p, now) == PassState(st.rows[key := now], st.attempts + [attempt.value], st.recorded + [key]);
          } else {
            assert Step(st, p, now) == st.(attempts := st.attempts + [attempt.value]);
          }
        } else {
          assert Step(st, p, now) == st.(attempts := st.attempts + [attempt.value]);
        }
      } else {
        assert Step(st, p, now) == st;
      }
    } else {
      assert VideoKey(obj) == None;
    }
  }

  function OptionSeq<T>(o: Option<T>): seq<T> {
    if o.Some? then [o.value] else []
  }

  /** The inner loop of `main` over one date's listed objects. */
  method HandleListing(ledger: PostedVideos, probes: seq<Probe>, now: int, attempts: seq<Attempt>,
                       ghost recorded: seq<string>)
    returns (attempts': seq<Attempt>, added: nat, ghost recorded': seq<string>)
    modifies ledger
    ensures PassState(ledger.rows, attempts', recorded') ==
      ScanObjects(PassState(old(ledger.rows), attempts, recorded), probes, now)
    ensures |recorded'| == |recorded| + added
  {
    ghost var before := PassState(ledger.rows, attempts, recorded);
    attempts', added, recorded' := attempts, 0, recorded;
    for j := 0 to |probes|
      invariant PassState(ledger.rows, attempts', recorded') == ScanObjects(before, probes[..j], now)
      invariant |recorded'| == |recorded| + added
    {
      assert probes[..j + 1][..j] == probes[..j];
      var attempt, recordedKey := HandleObject(ledger, probes[j], now, PassState(ledger.rows, attempts', recorded'));
      attempts' := attempts' + OptionSeq(attempt);
      recorded' := recorded' + OptionSeq(recordedKey);
      if recordedKey.Some? {
        added := added + 1;
      }
    }
    assert probes[..|probes|] == probes;
  }

  /** The prefixes listed for a sequence of dates, in order. */
  function PrefixesOf(dates: seq<Date>): (prefixes: seq<string>)
    ensures |prefixes| == |dates|
  {
    if dates == [] then [] else PrefixesOf(dates[..|dates| - 1]) + [ScanPrefix(dates[|dates| - 1])]
  }

  lemma PrefixesOfPair(a: Date, b: Date)
    ensures PrefixesOf([a, b]) == [ScanPrefix(a), ScanPrefix(b)]
  {
    assert [a, b][..1] == [a];
    assert [a][..0] == [];
  }

  /** One date of the outer loop: a failed listing is logged and skipped. */
  method HandleDate(ledger: PostedVideos, listing: Listing, now: int, attempts: seq<Attempt>,
                    ghost recorded: seq<string>)
    returns (attempts': seq<Attempt>, added: nat, ghost recorded': seq<string>)
    modifies ledger
    ensures PassState(ledger.rows, attempts', recorded') ==
      ScanListing(PassState(old(ledger.rows), attempts, recorded), listing, now)
    ensures |recorded'| == |recorded| + added
  {
    match listing
    case ListError =>
      attempts', added, recorded' := attempts, 0, recorded;
    case Listed(probes) =>
      attempts', added, recorded' := HandleListing(ledger, probes, now, attempts, recorded);
  }

  lemma ScanDatesSnoc(st: PassState, listings: seq<Listing>, i: nat, now: int)
    requires i < |listings|
    ensures ScanDates(st, listings[..i + 1], now) == ScanListing(ScanDates(st, listings[..i], now), listings[i], now)
  {
    assert listings[..i + 1][..i] == listings[..i];
  }

  datatype PassReport = PassReport(prefixes: seq<string>, attempts: seq<Attempt>,
                                   newVideosFound: nat, cleanupOk: bool)

  /** The store's answers for a sequence of prefixes, in order. */
  function Fetch(store: string -> Listing, prefixes: seq<string>): (listings: seq<Listing>)
    ensures |listings| == |prefixes|
    ensures forall i :: 0 <= i < |prefixes| ==> listings[i] == store(prefixes[i])
  {
    if prefixes == [] then [] else Fetch(store, prefixes[..|prefixes| - 1]) + [store(prefixes[|prefixes| - 1])]
  }

  /** The outer loop of `main` over the dates to scan: each date's prefix is
      listed by `store` and the answer handled in turn. */
  method ScanDays(ledger: PostedVideos, dates: seq<Date>, now: int, store: string -> Listing)
    returns (prefixes: seq<string>, attempts: seq<Attempt>, newVideosFound: nat, ghost recorded: seq<string>)
    modifies ledger
    ensures prefixes == PrefixesOf(dates)
    ensures PassState(ledger.rows, attempts, recorded) ==
      ScanDates(PassState(old(ledger.rows), [], []), Fetch(store, prefixes), now)
    ensures newVideosFound == |recorded|
  {
    ghost var start := PassState(ledger.rows, [], []);
    prefixes, attempts, newVideosFound, recorded := [], [], 0, [];
    for i := 0 to |dates|
      invariant prefixes == PrefixesOf(dates[..i])
      invariant PassState(ledger.rows, attempts, recorded) == ScanDates(start, Fetch(store, prefixes), now)
      invariant newVideosFound == |recorded|
    {
      assert dates[..i + 1][..i] == dates[..i];
      var prefix := ScanPrefix(dates[i]);
      var listing := store(prefix);
      ScanDatesSnoc(start, Fetch(store, prefixes + [prefix]), |prefixes|, now);
      assert Fetch(store, prefixes + [prefix])[..|prefixes|] == Fetch(store, prefixes);
      prefixes := prefixes + [prefix];
      var added;
      attempts, added, recorded := HandleDate(ledger, listing, now, attempts, recorded);
      newVideosFound := newVideosFound + added;
    }
    assert dates[..|dates|] == dates;
  }

  /** `main`'s notification pass: `store` answers the listing request for
      a prefix, and today's prefix is scanned before yesterday's; the ledger
      is pruned at the end whether or not anything was found. */
  method RunPass(ledger: PostedVideos, today: Date, now: int, store: string -> Listing, cleanupFails: bool)
    returns (report: PassReport)
    requires Valid(today)
    modifies ledger
    ensures report.prefixes == [ScanPrefix(today), ScanPrefix(PreviousDay(today))]
    ensures var st := Pass(old(ledger.rows), [store(ScanPrefix(today)), store(ScanPrefix(PreviousDay(today)))], now);
      report.attempts == st.attempts &&
      report.newVideosFound == |st.recorded| &&
      report.cleanupOk == !cleanupFails &&
      ledger.rows == AfterCleanup(st.rows, now, cleanupFails)
  {
    var prefixes, attempts, newVideosFound, recorded := ScanDays(ledger, [today, PreviousDay(today)], now, store);
    PrefixesOfPair(today, PreviousDay(today));
    assert Fetch(store, prefixes) == [store(ScanPrefix(today)), store(ScanPrefix(PreviousDay(today)))];
    var cleanupOk := ledger.Cleanup(now, cleanupFails);
    report := PassReport(prefixes, attempts, newVideosFound, cleanupOk);
  }
}
