/** The pure parts of the Discord notifier (discord-notifier/main.go): how
    a key is split into the date and file name a message shows, how a
    byte count is given a binary unit, and when a webhook call counts as
    delivered. */
module Notifier {
  import opened Wrappers
  import opened Strings
  import opened Dates

  // ---------------------------------------------------------------------
  // Key decoding (the start of sendDiscordNotification).

  datatype KeyParts = KeyParts(date: string, filename: string)

  const UnknownDate := "Unknown"

  /** A key of more than 10 characters with '/' at offsets 4 and 7 yields
      the date `key[0:4]-key[5:7]-key[8:10]` and, when it is longer than 11
      characters, the file name `key[11:]`; the file name is otherwise the
      whole key, and the date of any other key is "Unknown".  Offsets and
      lengths count characters where Go counts bytes; the two agree when
      the key's first 11 bytes are ASCII, as under every scan prefix. */
  function DecodeKey(key: string): (r: KeyParts)
    ensures HasSuffix(key, r.filename)
    ensures r.date == UnknownDate <==> !(|key| > 10 && key[4] == '/' && key[7] == '/')
    ensures r.date != UnknownDate ==>
      |r.date| == 10 && r.date[4] == '-' && r.date[7] == '-' &&
      r.date[0..4] == key[0..4] && r.date[5..7] == key[5..7] && r.date[8..10] == key[8..10]
    ensures |key| > 11 && key[4] == '/' && key[7] == '/' ==> r.filename == key[11..]
    ensures !(|key| > 11 && key[4] == '/' && key[7] == '/') ==> r.filename == key
  {
    if |key| > 10 && key[4] == '/' && key[7] == '/' then
      var date := key[0..4] + "-" + key[5..7] + "-" + key[8..10];
      assert date[0..4] == key[0..4] && date[5..7] == key[5..7] && date[8..10] == key[8..10];
      KeyParts(date, if |key| > 11 then key[11..] else key)
    else
      KeyParts(UnknownDate, key)
  }

  /** Round trip: a key the notifier's own scan finds, the day's prefix
      followed by a non-empty name, decodes to that day's label and
      exactly that name. */
  lemma {:induction false} DecodeScannedKey(d: Date, name: string)
    requires Valid(d) && FourDigitYear(d) && name != ""
    ensures DecodeKey(ScanPrefix(d) + name) == KeyParts(DateLabel(d), name)
  {
    PrefixLayout(d);
    var p := ScanPrefix(d);
    var key := p + name;
    assert key[..11] == p;
    assert key[0..4] == p[0..4] && key[5..7] == p[5..7] && key[8..10] == p[8..10];
    assert key[11..] == name;
  }

  /** The edge case of the decoder: the bare prefix still decodes its date,
      but the file name falls back to the whole key. */
  lemma DecodeBarePrefix(d: Date)
    requires Valid(d) && FourDigitYear(d)
    ensures DecodeKey(ScanPrefix(d)) == KeyParts(DateLabel(d), ScanPrefix(d))
  {
    PrefixLayout(d);
  }

  // ---------------------------------------------------------------------
  // formatFileSize.

  const Int64Min := -0x8000_0000_0000_0000
  const Int64Max := 0x7FFF_FFFF_FFFF_FFFF

  predicate IsInt64(n: int) {
    Int64Min <= n <= Int64Max
  }

  /** Go's int64, the type of object sizes. */
  type Int64 = n: int | IsInt64(n)

  const Unit := 1024
  const UnitPrefixes := "KMGTPE"

  function Pow1024(k: nat): (p: nat)
    ensures p >= 1
  {
    if k == 0 then 1 else Unit * Pow1024(k - 1)
  }

  /** How many more times the loop divides `n` by 1024 before it drops
      below 1024. */
  function Steps(n: nat): nat
    decreases n
  {
    if n < Unit then 0 else 1 + Steps(n / Unit)
  }

  /** The size as a message shows it: "%d B" below 1024 bytes, and
      otherwise the divisor and the unit of "%.1f %cB". */
  datatype SizeLabel = InBytes(text: string) | Scaled(divisor: int, unit: string)

  function FileSizeLabel(bytes: Int64): SizeLabel
  {
    if bytes < Unit then InBytes(Decimal(bytes) + " B")
    else
      var exp := Steps(bytes / Unit);
      ScaleBounds(bytes);
      Scaled(Pow1024(exp + 1), [UnitPrefixes[exp], 'B'])
  }

  lemma MulAtLeast(m: int, k: int)
    requires m > 0 && k >= 1
    ensures m * k >= m
  {
    assert m * k == m * (k - 1) + m;
  }

  lemma DivUnique(a: int, m: int, q: int, r: int)
    requires m > 0 && 0 <= r < m && a == m * q + r
    ensures a / m == q
  {
    var q', r' := a / m, a % m;
    assert m * q + r == m * q' + r';
    if q > q' {
      assert m * (q - q') == r' - r;
      MulAtLeast(m, q - q');
    } else if q < q' {
      assert m * (q' - q) == r - r';
      MulAtLeast(m, q' - q);
    }
  }

  lemma Distribute(b: int, c: int, q: int, r: int)
    ensures b * (c * q + r) == (b * c) * q + b * r
  {
  }

  lemma MulMonotone(b: int, x: int, y: int)
    requires b >= 0 && x <= y
    ensures b * x <= b * y
  {
    assert b * y - b * x == b * (y - x);
  }

  /** Dividing twice is dividing by the product. */
  lemma DivDiv(a: nat, b: nat, c: nat)
    requires b > 0 && c > 0
    ensures a / b / c == a / (b * c)
  {
    var q1, r1 := a / b, a % b;
    var q2, r2 := q1 / c, q1 % c;
    Distribute(b, c, q2, r2);
    MulMonotone(b, r2, c - 1);
    Distribute(b, 1, c - 1, 1);
    DivUnique(a, b * c, q2, b * r2 + r1);
  }

  lemma {:induction false} StepsBounds(n: nat)
    requires n >= 1
    ensures Pow1024(Steps(n)) <= n < Pow1024(Steps(n) + 1)
    decreases n
  {
    if n >= Unit {
      var m := n / Unit;
      StepsBounds(m);
      var e := Steps(m);
      assert Steps(n) == e + 1;
      assert Unit * m <= n < Unit * (m + 1);
      assert Unit * Pow1024(e) <= Unit * m;
      assert Unit * (m + 1) <= Unit * Pow1024(e + 1);
    }
  }

  lemma QuotientRange(n: int, p: int)
    requires p > 0 && p <= n < Unit * p
    ensures 1 <= n / p < Unit
  {
    var q := n / p;
    if q < 1 {
      MulMonotone(p, q, 0);
    } else if q >= Unit {
      MulMonotone(p, Unit, q);
    }
  }

  /** The unit the loop settles on: the divisor is 1024^(exp+1), the
      quotient lies in [1, 1024), and for any int64 the exponent indexes
      "KMGTPE" within bounds. */
  lemma {:induction false} ScaleBounds(bytes: int)
    requires IsInt64(bytes) && bytes >= Unit
    ensures var exp := Steps(bytes / Unit);
      exp <= 5 && Pow1024(exp + 1) <= bytes && 1 <= bytes / Pow1024(exp + 1) < Unit
  {
    var n := bytes / Unit;
    var exp := Steps(n);
    var p := Pow1024(exp);
    StepsBounds(n);
    DivDiv(bytes, Unit, p);
    QuotientRange(n, p);
    MulMonotone(Unit, p, n);
    if exp >= 6 {
      Pow1024Grows(7, exp + 1);
    }
  }

  lemma {:induction false} Pow1024Grows(i: nat, j: nat)
    requires i <= j
    ensures Pow1024(i) <= Pow1024(j)
    decreases j
  {
    if i < j {
      Pow1024Grows(i, j - 1);
    }
  }

  /** Boundary cases: 1023 is the last size shown in bytes and 1024 the
      first KB size; 1536 and 1048575 keep KB, and 1024 * 1024 is the first
      MB size.  The float rendering of the quotient is not modelled. */
  lemma FileSizeExamples()
    ensures FileSizeLabel(0) == InBytes("0 B")
    ensures FileSizeLabel(1023) == InBytes("1023 B")
    ensures FileSizeLabel(1024) == Scaled(1024, "KB")
    ensures FileSizeLabel(1048575) == Scaled(1024, "KB")
    ensures FileSizeLabel(1536) == Scaled(1024, "KB")
    ensures FileSizeLabel(1048576) == Scaled(1048576, "MB")
  {
    assert Digits(0) == "0";
  }

  /** formatFileSize's loop: `div` grows by 1024 and `exp` by one while
      the quotient `n` is still 1024 or more. */
  method FormatFileSize(bytes: Int64) returns (size: SizeLabel)
    ensures size == FileSizeLabel(bytes)
    ensures bytes < Unit ==> size == InBytes(Decimal(bytes) + " B")
    ensures bytes >= Unit ==> size.Scaled? && 1 <= bytes / size.divisor < Unit
  {
    if bytes < Unit {
      return InBytes(Decimal(bytes) + " B");
    }
    var div, exp := Unit, 0;
    var n := bytes / Unit;
    ScaleBounds(bytes);
    while n >= Unit
      invariant div == Pow1024(exp + 1) && div <= bytes
      invariant n == bytes / div && n >= 1
      invariant exp + Steps(n) == Steps(bytes / Unit)
      decreases n
    {
      DivDiv(bytes, div, Unit);
      MulMonotone(div, Unit, n);
      div := div * Unit;
      exp := exp + 1;
      n := n / Unit;
    }
    size := Scaled(div, [UnitPrefixes[exp], 'B']);
  }

  // ---------------------------------------------------------------------
  // The webhook call.

  /** What the HTTP POST to the webhook came back with. */
  datatype SendOutcome = TransportFailed | Responded(status: int)

  datatype SendError = RequestFailed | BadStatus(status: int)

  /** The message's variable fields: date, file name, size, key and the
      object's timestamp. */
  datatype Notification = Notification(key: string, date: string, filename: string,
                                       size: SizeLabel, timestamp: int)

  function Compose(key: string, fileSize: Int64, lastModified: int): Notification
  {
    var parts := DecodeKey(key);
    Notification(key, parts.date, parts.filename, FileSizeLabel(fileSize), lastModified)
  }

  predicate Delivered(outcome: SendOutcome) {
    outcome.Responded? && 200 <= outcome.status < 300
  }

  /** sendDiscordNotification: builds the message and reports an error
      unless the webhook answered with a 2xx status. */
  method SendNotification(key: string, fileSize: Int64, lastModified: int, outcome: SendOutcome)
    returns (message: Notification, err: Option<SendError>)
    ensures message == Compose(key, fileSize, lastModified)
    ensures message.key == key && message.timestamp == lastModified
    ensures err.None? <==> Delivered(outcome)
    ensures outcome.TransportFailed? ==> err == Some(RequestFailed)
    ensures outcome.Responded? && err.Some? ==> err == Some(BadStatus(outcome.status))
  {
    var parts := DecodeKey(key);
    var size := FormatFileSize(fileSize);
    message := Notification(key, parts.date, parts.filename, size, lastModified);
    match outcome
    case TransportFailed =>
      err := Some(RequestFailed);
    case Responded(status) =>
      if status < 200 || status >= 300 {
        err := Some(BadStatus(status));
      } else {
        err := None;
      }
  }
}
