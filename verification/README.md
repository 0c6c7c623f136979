# camera-viewer in Dafny

This project models the core of camera-viewer. The system is two Go programs over an object store whose keys have the form `YYYY/MM/DD/name.mp4`.

- **The web server** (`main.go`). It grants or refuses access through an optional HTTP Basic check. It also presents the flat key space as a year/month/day hierarchy: delimited listings of common prefixes become the partition names. Finally, it lists one day's `.mp4` files and picks today's latest video (the greatest key).
- **The Discord notifier** (`discord-notifier/main.go`). Each run lists today's and yesterday's partitions. For every `.mp4` key not yet in its SQLite ledger, it posts a webhook message and records the key once the post succeeds. It then deletes ledger rows older than seven days.

The Dafny modules follow the program's structure:

- `Strings`: the string functions the programs use.
  - `strings.HasSuffix`, `TrimPrefix` and `TrimSuffix`.
  - Go's byte-wise string order (`Less`).
  - `%d`/`%0Nd` rendering and its parse-back.
  - `filepath.Base`.
- `Dates`: calendar dates.
  - `AddDate(0, 0, -1)`, modelled as `PreviousDay` with `NextDay` as its partner.
  - The `%04d/%02d/%02d/` prefix and the `YYYY-MM-DD` label.
- `Server`: the handlers of `main.go`.
  - The object store is a total function from a listing request to its answer. Each handler's contract names the request it issues and says what it makes of the answer.
- `Notifier`: the parts of `sendDiscordNotification` and `formatFileSize` that are pure, plus the webhook status check.
- `Ledger`: the `posted_videos` table.
  - It is a class whose field `rows` maps each `s3_key` to its `posted_at`.
  - A map holds one row per key, so the UNIQUE constraint holds by construction. An insert of a present key fails with `DuplicateKey` and leaves the table unchanged.
- `NotifierPass`: one run of the notifier's `main`.
  - The outside world's answers are inputs. Each listed object arrives with the outcome of its ledger lookup, its webhook call and its insert (a `Probe`). Each date's listing may fail.
  - `Pass` is a fold over those inputs. `RunPass` is the loop, proved to compute `Pass` over the store's answers and then the cleanup. The lemmas state what the fold guarantees.

Two behaviours of the code that the model keeps as written:

- **Duplicate inserts.** A failed `markVideoPosted` is handled the same way whatever the cause, a `DuplicateKey` included: it is logged, and the video is not counted in `newVideosFound`.
- **Which day `/latest-video` scans.** It always scans today's partition. There is no date parameter.

## Model

| member | source | states |
|---|---|---|
| Server.Authorize | main.go:22-45 | Access is granted whenever USERNAME or PASSWORD is empty. Otherwise it is granted iff the request presented exactly that pair. Every refusal is 401 with the `Basic realm="Camera Viewer"` challenge. |
| Server.AuthorizeNeedsExactPair | main.go:28-41 | With both configured, presented credentials are accepted iff both the user and the password match. A request without credentials is denied. |
| Server.CollectPartitions | main.go:174-183 | The returned names have no duplicates. A name is in the result iff it is the trimmed form of some common prefix. There are no more names than prefixes. The map's iteration order is left arbitrary. |
| Server.MapKeys | main.go:180-183 | Every key of the name set is appended exactly once: the result has no duplicates, holds exactly the keys, and has the map's size. |
| Server.GroupedSegmentsRecovered | main.go:216-221 | When the store returns `parent + segment + "/"` prefixes, trimming recovers exactly the set of segments. |
| Server.ListYears | main.go:157-189 | An empty bucket is a server error. Otherwise the request is a `/`-delimited listing of the whole bucket. A failed listing is a server error. The years returned are distinct and are exactly the trimmed common prefixes. |
| Server.ListMonths | main.go:191-233 | A missing bucket, then a missing year, is rejected. Otherwise the request is a delimited listing under `year/`, and the months returned are exactly the common prefixes with `year/` and the trailing `/` removed, without duplicates. |
| Server.ListDays | main.go:235-279 | The same as ListMonths, one level down, under `year/month/`, with either parameter missing rejected. |
| Server.VideosMembers | main.go:133-147 | The filter keeps an entry iff its key ends in `.mp4`. |
| Server.VideosConcat | main.go:133-147 | Filtering distributes over concatenation, so the kept entries stay in listing order. |
| Server.VideoFiles | main.go:132-147 | The i-th file record is the record of the i-th `.mp4` entry of the listing. There is one record per such entry. |
| Server.ListFilesByDate | main.go:104-155 | Missing parameters are rejected. The request is an undelimited listing under `year/month/day/`. The body's date is `year-month-day`, its files are exactly the `.mp4` entries in order, and `count` equals the number of files. |
| Server.FilenameOfDayKey | main.go:137 | For a key stored under a day's prefix, `filepath.Base` gives back the file's own name. |
| Server.Latest | main.go:341-355 | Whatever the scan settles on is a `.mp4` entry of the listing. |
| Server.LatestFound | main.go:342-369 | Something is found iff the listing holds a `.mp4` key. |
| Server.LatestIsGreatest | main.go:341-355 | The chosen key is greater than or equal to every `.mp4` key in byte-wise order. The chosen entry is the first entry carrying that key. |
| Server.LatestIgnoresOthers | main.go:343-344 | Entries that are not videos never change the choice. |
| Server.ScanLatest | main.go:338-355 | The loop with the `latestKey == ""` sentinel computes exactly `Latest`. |
| Server.LatestVideo | main.go:314-370 | The request is an undelimited listing under today's zero-padded prefix. The date label is today's. `latestVideo` is present iff a `.mp4` exists, and when present it is a listed video carrying the greatest key. |
| Strings.TrimPrefix | main.go:218 | When the prefix is present, the input is prefix + result. Otherwise the input is unchanged. |
| Strings.TrimSuffix | main.go:176 | When the suffix is present, the input is result + suffix. Otherwise the input is unchanged. |
| Strings.LessTransitive | main.go:344 | Go's string `>` on keys is a transitive order. |
| Strings.LessTotal | main.go:344 | Of two different keys, one is greater. |
| Strings.LessIrreflexive | main.go:344 | No key is greater than itself. |
| Strings.ParseDigitsOfDigits | main.go:323 | The `%d` rendering of a natural number reads back as that number. |
| Strings.PaddedWidth | main.go:323-325 | `%0Nd` of a number with at most N digits is exactly N digits. |
| Strings.ParseZeroPad | main.go:323-325 | Zero padding reads back as the number it pads. |
| Strings.LastSegmentAfterSlash | main.go:137 | The last path segment of `dir/name` is `name`. |
| Dates.PreviousDay | discord-notifier/main.go:101-102 | One day back is a valid date, the following day is today, and the year changes only on 1 January. |
| Dates.PrefixLayout | discord-notifier/main.go:106 | A prefix with a four-digit year is 11 characters. It has `/` at offsets 4, 7 and 10 and digits elsewhere. Its label is the same digits joined by `-`. |
| Dates.ParsePrefixOfScanPrefix | discord-notifier/main.go:106 | The date reads back from its prefix, so distinct days use distinct prefixes. |
| Dates.TodayAndYesterdayDiffer | discord-notifier/main.go:101-106 | The two partitions a run scans are different prefixes. |
| Notifier.DecodeKey | discord-notifier/main.go:213-221 | Offsets count characters, not bytes. The date is "Unknown" iff the key is not longer than 10 characters with `/` at offsets 4 and 7. Otherwise the date is `key[0:4]-key[5:7]-key[8:10]`. For a key of that shape longer than 11 characters, the file name is exactly `key[11:]`. For any other key it is the whole key. |
| Notifier.DecodeScannedKey | discord-notifier/main.go:213-221 | Round trip: the key `prefix(d) + name` decodes to d's label and exactly `name`. |
| Notifier.DecodeBarePrefix | discord-notifier/main.go:216-220 | A bare day prefix still yields its date, but its file name is the whole key. |
| Notifier.StepsBounds | discord-notifier/main.go:298-301 | The number of divisions the loop makes puts the quotient between 1024^k and 1024^(k+1). |
| Notifier.ScaleBounds | discord-notifier/main.go:292-303 | For any int64 from 1024 up: exp is at most 5, so it indexes "KMGTPE". The divisor is 1024^(exp+1), and 1 <= bytes/divisor < 1024. |
| Notifier.FileSizeExamples | discord-notifier/main.go:292-303 | Boundary cases: 0 is "0 B" and 1023 is "1023 B", the last size in bytes. 1024, 1536 and 1048575 scale to KB by 1024. 1048576 is the first size that scales to MB, by 1048576. |
| Notifier.FormatFileSize | discord-notifier/main.go:292-303 | The loop yields the specified label: "%d B" below 1024, else the divisor and unit with the quotient in [1, 1024). |
| Notifier.SendNotification | discord-notifier/main.go:212-290 | The message carries the decoded date, the file name, the size label, the key and the timestamp. There is no error iff the webhook answered with 200 <= status < 300. A transport failure and a non-2xx status are reported as distinct errors. |
| Ledger.RetainedExactly | discord-notifier/main.go:206-210 | Cleanup keeps exactly the rows with posted_at >= now - 7 days, with their timestamps, and adds none. |
| Ledger.RetentionExamples | discord-notifier/main.go:208 | A row 8 days old is removed. Rows 6 days old and exactly 7 days old are kept. |
| Ledger.RetainedIdempotentMonotone | discord-notifier/main.go:206-210 | Pruning twice at one time equals pruning once. A later prune keeps no row an earlier one dropped. |
| Ledger.PostedVideos.Open | discord-notifier/main.go:169-190 | Opening keeps the rows an earlier run left. |
| Ledger.PostedVideos.IsPosted | discord-notifier/main.go:192-199 | The answer is the key's presence, or the query's error. |
| Ledger.PostedVideos.MarkPosted | discord-notifier/main.go:201-204 | The insert succeeds iff it does not fail and the key is absent. On success it adds exactly that row at `now`. On failure it changes nothing, and a present key is a DuplicateKey error. |
| Ledger.PostedVideos.Cleanup | discord-notifier/main.go:206-210 | On success the rows become the retained rows. On failure they are unchanged. |
| NotifierPass.StepDecision | discord-notifier/main.go:118-153 | For one object, a webhook call is made iff its key is non-nil, ends in `.mp4`, its lookup succeeded and the ledger lacks it. The key is recorded iff that call answered 2xx and the insert succeeded. Otherwise nothing changes. |
| NotifierPass.StepAccounts | discord-notifier/main.go:118-153 | One object preserves the pass invariant. Old rows are untouched. New rows are keys recorded once, at `now`, each after a delivered call. Calls are only for new videos. |
| NotifierPass.RecordAccounts | discord-notifier/main.go:143-147 | Recording a video the ledger lacks, after a delivered call for it, preserves the pass invariant. |
| NotifierPass.AttemptAccounts | discord-notifier/main.go:139-145 | A webhook call for a video new to the ledger that records nothing preserves the pass invariant. |
| NotifierPass.ScanObjectsAccounts | discord-notifier/main.go:118-154 | A date's objects preserve the pass invariant. |
| NotifierPass.ScanDatesAccounts | discord-notifier/main.go:105-155 | All dates together preserve the pass invariant. |
| NotifierPass.PassAccounts | discord-notifier/main.go:104-155 | A pass starting from the ledger establishes the invariant. |
| NotifierPass.NoRecordWithoutDelivery | discord-notifier/main.go:139-150 | Each row a pass adds is at `now` and has a delivered webhook call for that key. Rows held before the pass keep their timestamps. |
| NotifierPass.SendsOnlyNewVideos | discord-notifier/main.go:119-127 | Every webhook call is for a `.mp4` key that the ledger lacked when the pass began. |
| NotifierPass.NewVideosFoundIsGrowth | discord-notifier/main.go:143-147 | The keys recorded are distinct, and their number (newVideosFound) is exactly how much the ledger grew. |
| NotifierPass.ScanDatesConcat | discord-notifier/main.go:105-155 | Scanning two runs of dates in sequence equals scanning them together. |
| NotifierPass.ListErrorSkipsOnlyThatDate | discord-notifier/main.go:113-116 | A failed listing is skipped, and the other dates are processed as if it were absent. |
| NotifierPass.ScanObjectsCovers | discord-notifier/main.go:118-153 | When every lookup, send and insert of a video not already in the ledger succeeds, each listed video ends up in the ledger. |
| NotifierPass.ScanDatesCovers | discord-notifier/main.go:105-155 | The same holds over all dates of a pass. |
| NotifierPass.ScanObjectsGrows | discord-notifier/main.go:143 | The scan never removes a ledger row. |
| NotifierPass.ScanListingGrows | discord-notifier/main.go:113-118 | This also holds for a date whose listing fails. |
| NotifierPass.ScanObjectsQuiet | discord-notifier/main.go:119-127 | When the ledger holds every listed video, a scan calls no webhook and changes nothing. |
| NotifierPass.ScanDatesQuiet | discord-notifier/main.go:105-127 | The same holds over all dates. |
| NotifierPass.SecondPassSendsNothing | discord-notifier/main.go:104-166 | Assume a pass in which every lookup, send and insert for a video not yet in the ledger succeeded, followed by its cleanup. Assume also that every row the ledger already held for a listed video was within the 7-day window at the first pass's time. A second pass over no new videos then sends nothing and changes nothing. Without that second assumption a listed key with an older row is pruned and sent again. |
| NotifierPass.RetryAfterFailedSend | discord-notifier/main.go:139-166 | A failed send records nothing, and the run's cleanup, whether it succeeds or fails, cannot add the key. The next run therefore sends again, with the call delivered, and records the key exactly once on top of the pruned ledger. |
| NotifierPass.HandleObject | discord-notifier/main.go:118-153 | The loop body computes one `Step` on the ledger. |
| NotifierPass.HandleListing | discord-notifier/main.go:118-154 | The inner loop computes `ScanObjects` and counts the keys recorded. |
| NotifierPass.HandleDate | discord-notifier/main.go:108-154 | A failed listing leaves the ledger and the calls unchanged. Otherwise the date's objects are scanned as `ScanListing` specifies. |
| NotifierPass.ScanDays | discord-notifier/main.go:105-155 | The prefixes listed are the dates' prefixes in order. The ledger and the calls end as `ScanDates` over the store's answer for each prefix. The count of new videos equals the number of keys recorded. |
| NotifierPass.RunPass | discord-notifier/main.go:99-166 | The run scans today's prefix, then yesterday's, and makes exactly the webhook calls of `Pass` over the store's answers for those two prefixes, in that order. newVideosFound equals the number of keys recorded. The ledger ends as `Pass`'s rows after the cleanup, which leaves the ledger unchanged when it fails. |

## Left out

- HTTP routing, JSON encoding, the static file handler and `/health`: only the decision each handler takes and the body it builds are modelled.
- `/list-bucket` and `/get-video-url`: these are not part of this model. The first is a plain listing and the second a presigning call into the SDK.
- `handlers/handlers.go`, `services/s3.go` and `config/config.go`: these are not part of this model. `main.go` does not use them.
- Environment variables, the clock, the object store, SQLite and the Discord webhook are inputs:
  - credentials, bucket and `today` are parameters;
  - the store is a function `Store`;
  - each object's lookup, send and insert outcomes travel in a `Probe`.
- Pagination: every listing is its first page only, as the code reads only one page.
- Server.ListFilesByDate: when no file matches, Go encodes a nil slice as JSON `null`. The model returns an empty sequence. The same holds for the years, months and days lists.
- Server.Entry: the handlers dereference `*obj.Key` and `*obj.Size` without a nil check and would panic on a nil. The model takes both as present values.
- Server.ListYears: the store's error text in "Failed to list objects: %v" is left out. The other handlers omit it too, and only the fixed part is kept.
- Notifier.DecodeKey: offsets and lengths count characters, where Go's `len`, indexing and slicing count UTF-8 bytes. The two agree whenever the key's first 11 bytes are ASCII, which holds for every key listed under a scan prefix with a four-digit year. A key with a multi-byte character among its first 11 bytes may decode differently. For example, Go decodes "éab/cd/ef/x.mp4" to the date "éab-cd-ef", while the model gives "Unknown".
- Notifier.FormatFileSize: the "%.1f" floating-point rendering of the quotient is not modelled. The label keeps the divisor and the unit, and the contract states the quotient's range instead.
- Notifier.Compose: the message's constant fields are left out, as are the bucket name in the description and the RFC 3339 rendering of the timestamp. Those are the title, colour, field names and footer. The timestamp stays a number.
- NotifierPass.RunPass: `posted_at` is the pass's single `now`, but SQLite's CURRENT_TIMESTAMP advances during a run. Likewise, a nil LastModified defaults to that same `now`. The 2-second sleep after each success is left out, and so is the log output.
- Ledger.Recent: timestamps are whole seconds on one clock, whereas SQLite compares its text timestamps.
