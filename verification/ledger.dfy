/** The notifier's record of which videos it has announced: the SQLite
    table posted_videos(id, s3_key UNIQUE, posted_at), seen as a map from
    s3_key to posted_at.  A map holds at most one row per key, which is
    what the UNIQUE constraint guarantees; an insert of a key that is
    already there fails and leaves the table as it was.  Times are seconds
    on one clock, supplied by the caller as `now`. */
module Ledger {
  import opened Wrappers

  const RetentionDays := 7
  const RetentionSeconds := RetentionDays * 24 * 60 * 60

  /** A row survives cleanupOldEntries unless
      posted_at < datetime('now', '-7 days'). */
  predicate Recent(postedAt: int, now: int) {
    postedAt >= now - RetentionSeconds
  }

  /** The rows cleanupOldEntries keeps. */
  function Retained(rows: map<string, int>, now: int): map<string, int> {
    map k | k in rows && Recent(rows[k], now) :: rows[k]
  }

  /** Pruning keeps exactly the recent rows, with their timestamps. */
  lemma RetainedExactly(rows: map<string, int>, now: int)
    ensures forall k :: k in Retained(rows, now) <==> k in rows && rows[k] >= now - RetentionSeconds
    ensures forall k :: k in Retained(rows, now) ==> Retained(rows, now)[k] == rows[k]
    ensures Retained(rows, now).Keys <= rows.Keys
  {
  }

  /** The retention window by example: a row posted 8 days ago goes, one
      posted 6 days ago stays, and one posted exactly 7 days ago stays
      too, since only rows strictly older than the cut-off are deleted. */
  lemma RetentionExamples(key: string, now: int)
    ensures key !in Retained(map[key := now - 8 * 24 * 60 * 60], now)
    ensures key in Retained(map[key := now - 6 * 24 * 60 * 60], now)
    ensures key in Retained(map[key := now - 7 * 24 * 60 * 60], now)
  {
  }

  /** Pruning twice at the same time is pruning once, and a later prune
      keeps no row an earlier one dropped. */
  lemma RetainedIdempotentMonotone(rows: map<string, int>, now: int, later: int)
    requires now <= later
    ensures Retained(Retained(rows, now), now) == Retained(rows, now)
    ensures Retained(rows, later).Keys <= Retained(rows, now).Keys
  {
  }

  datatype Lookup = LookupFailed | Answer(posted: bool)

  datatype InsertError = DuplicateKey | WriteFailed

  class PostedVideos {
    /** s3_key -> posted_at */
    var rows: map<string, int>

    /** initDatabase: CREATE TABLE IF NOT EXISTS keeps what an earlier run
        left in the database file. */
    constructor Open(existing: map<string, int>)
      ensures rows == existing
    {
      rows := existing;
    }

    /** isVideoPosted: SELECT COUNT(*) ... > 0, or the query's error. */
    method IsPosted(key: string, queryFails: bool) returns (r: Lookup)
      ensures queryFails ==> r == LookupFailed
      ensures !queryFails ==> r == Answer(key in rows)
    {
      if queryFails {
        return LookupFailed;
      }
      r := Answer(key in rows);
    }

    /** markVideoPosted: INSERT with posted_at defaulting to the current
        time.  A key already present violates UNIQUE(s3_key). */
    method MarkPosted(key: string, now: int, writeFails: bool) returns (err: Option<InsertError>)
      modifies this
      ensures err.None? <==> !writeFails && key !in old(rows)
      ensures !writeFails && key in old(rows) ==> err == Some(DuplicateKey)
      ensures writeFails ==> err == Some(WriteFailed)
      ensures err.None? ==> rows == old(rows)[key := now]
      ensures err.Some? ==> rows == old(rows)
    {
      if writeFails {
        return Some(WriteFailed);
      }
      if key in rows {
        return Some(DuplicateKey);
      }
      rows := rows[key := now];
      err := None;
    }

    /** cleanupOldEntries: DELETE the rows older than the retention window;
        on failure nothing is deleted. */
    method Cleanup(now: int, deleteFails: bool) returns (ok: bool)
      modifies this
      ensures ok == !deleteFails
      ensures ok ==> rows == Retained(old(rows), now)
      ensures !ok ==> rows == old(rows)
    {
      if deleteFails {
        return false;
      }
      rows := Retained(rows, now);
      ok := true;
    }
  }
}
