/** The status log on disk: one file per local calendar day, named
    DD-MM-YYYY.log under the log directory, and the retention purge that
    deletes files older than the configured number of days. */
module LogRotation {

  import opened Wrappers
  import opened TextFormat
  import opened Cooldown

  const NANOS_PER_DAY: int := 24 * 60 * 60 * NANOS_PER_SECOND

  /** Path separator used by filepath.Join. */
  const SEPARATOR: char := '/'

  /** A local calendar date. */
  datatype Date = Date(day: int, month: int, year: int)

  predicate ValidDate(d: Date) {
    1 <= d.day <= 31 && 1 <= d.month <= 12 && 0 <= d.year <= 9999
  }

  /** The layout "02-01-2006" followed by ".log". */
  function LogFileName(d: Date): (name: string)
    ensures ValidDate(d) ==> |name| == 14 && name[2] == '-' && name[5] == '-' && name[10..] == ".log"
  {
    AppendInt(d.day, 2) + "-" + AppendInt(d.month, 2) + "-" + AppendInt(d.year, 4) + ".log"
  }

  /** Reads a date back from a daily log file name: the reference inverse of
      LogFileName. */
  function ParseLogFileName(name: string): Option<Date> {
    if |name| == 14 && AllDigits(name[0..2]) && name[2] == '-' && AllDigits(name[3..5])
       && name[5] == '-' && AllDigits(name[6..10]) && name[10..] == ".log"
    then Some(Date(DecimalValue(name[0..2]), DecimalValue(name[3..5]), DecimalValue(name[6..10])))
    else None
  }

  lemma TwoDigitField(u: int)
    requires 0 <= u < 100
    ensures |AppendInt(u, 2)| == 2 && AllDigits(AppendInt(u, 2))
    ensures DecimalValue(AppendInt(u, 2)) == u
  {
    var s := AppendInt(u, 2);
    DecimalValueOfTwo(s);
  }

  lemma FourDigitField(u: int)
    requires 0 <= u < 10000
    ensures |AppendInt(u, 4)| == 4 && AllDigits(AppendInt(u, 4))
    ensures DecimalValue(AppendInt(u, 4)) == u
  {
    var s := AppendInt(u, 4);
    DecimalValueOfFour(s);
    DivTen(u);
    var q1, q2, q3 := u / 10, u / 100, u / 1000;
    assert u == q1 * 10 + u % 10;
    assert q1 == q2 * 10 + q1 % 10;
    assert q2 == q3 * 10 + q2 % 10;
  }

  /** Formatting a date and reading the name back gives the date again. */
  lemma LogFileNameRoundTrip(d: Date)
    requires ValidDate(d)
    ensures ParseLogFileName(LogFileName(d)) == Some(d)
  {
    var name := LogFileName(d);
    TwoDigitField(d.day);
    TwoDigitField(d.month);
    FourDigitField(d.year);
    assert name[0..2] == AppendInt(d.day, 2);
    assert name[3..5] == AppendInt(d.month, 2);
    assert name[6..10] == AppendInt(d.year, 4);
  }

  lemma TwoDigitCanonical(s: string)
    requires |s| == 2 && AllDigits(s)
    ensures AppendInt(DecimalValue(s), 2) == s
  {
    DecimalValueOfTwo(s);
    var a, b := DigitValue(s[0]), DigitValue(s[1]);
    assert DecimalValue(s) / 10 == a && DecimalValue(s) % 10 == b;
  }

  lemma FourDigitCanonical(s: string)
    requires |s| == 4 && AllDigits(s)
    ensures AppendInt(DecimalValue(s), 4) == s
  {
    var a, b, c, d := DigitValue(s[0]), DigitValue(s[1]), DigitValue(s[2]), DigitValue(s[3]);
    assert [DigitChar(a), DigitChar(b), DigitChar(c), DigitChar(d)] == s;
    DecimalValueOfFour(s);
    FourDigitFieldOf(a, b, c, d);
  }

  /** The four-digit field of a number is the sequence of its digits. */
  lemma FourDigitFieldOf(a: nat, b: nat, c: nat, d: nat)
    requires a < 10 && b < 10 && c < 10 && d < 10
    ensures AppendInt(a * 1000 + b * 100 + c * 10 + d, 4) == [DigitChar(a), DigitChar(b), DigitChar(c), DigitChar(d)]
  {
    var ab := a * 10 + b;
    var abc := ab * 10 + c;
    var u := abc * 10 + d;
    LastDigit(abc, d);
    LastDigit(ab, c);
    LastDigit(a, b);
    DivTen(u);
    assert u < 10000 && u / 1000 == a && u / 100 % 10 == b;
  }

  lemma LastDigit(q: nat, r: nat)
    requires r < 10
    ensures (q * 10 + r) / 10 == q && (q * 10 + r) % 10 == r
  {
  }

  lemma SplitName(name: string)
    requires |name| == 14 && name[2] == '-' && name[5] == '-' && name[10..] == ".log"
    ensures name == name[0..2] + "-" + name[3..5] + "-" + name[6..10] + ".log"
  {
    var joined := name[0..2] + "-" + name[3..5] + "-" + name[6..10] + ".log";
    assert |joined| == 14;
    forall i | 0 <= i < 14
      ensures joined[i] == name[i]
    {
      if i >= 10 {
        assert name[i] == name[10..][i - 10];
      }
    }
  }

  /** Every name that parses as a daily log file name is the name of the
      date it parses to: file names and dates correspond one to one. */
  lemma ParsedNameIsCanonical(name: string)
    requires ParseLogFileName(name).Some?
    ensures LogFileName(ParseLogFileName(name).value) == name
  {
    var day, month, year := name[0..2], name[3..5], name[6..10];
    var d := ParseLogFileName(name).value;
    assert d == Date(DecimalValue(day), DecimalValue(month), DecimalValue(year));
    TwoDigitCanonical(day);
    TwoDigitCanonical(month);
    FourDigitCanonical(year);
    assert LogFileName(d) == day + "-" + month + "-" + year + ".log";
    SplitName(name);
  }

  /** filepath.Join of a directory and a file name. */
  function JoinPath(dir: string, name: string): (path: string)
    ensures |path| >= |name| && path[|path| - |name|..] == name
    ensures dir != [] ==> |path| == |dir| + 1 + |name| && path[..|dir|] == dir && path[|dir|] == SEPARATOR
  {
    if dir == [] then name else dir + [SEPARATOR] + name
  }

  /** One directory entry as the purge sees it: its name, whether it is a
      directory, and its modification time, absent when stat failed. */
  datatype Entry = Entry(name: string, isDir: bool, modTime: Option<Instant>)

  /** The retention rule: an entry that is not a directory, whose stat
      succeeded and whose age is strictly greater than the retention window. */
  predicate Expired(e: Entry, now: Instant, retentionDays: int) {
    !e.isDir && e.modTime.Some? && now - e.modTime.value > retentionDays * NANOS_PER_DAY
  }

  /** Names of the expired entries, in directory order. */
  function ExpiredNames(entries: seq<Entry>, now: Instant, retentionDays: int): seq<string> {
    if entries == [] then []
    else
      var last := entries[|entries| - 1];
      ExpiredNames(entries[..|entries| - 1], now, retentionDays)
      + (if Expired(last, now, retentionDays) then [last.name] else [])
  }

  /** The purge removes the name of an entry exactly when some entry of that
      name is expired. */
  lemma {:induction false} ExpiredNamesExactly(entries: seq<Entry>, now: Instant, retentionDays: int, name: string)
    ensures name in ExpiredNames(entries, now, retentionDays) <==>
            exists i :: 0 <= i < |entries| && entries[i].name == name && Expired(entries[i], now, retentionDays)
  {
    if entries != [] {
      var init := entries[..|entries| - 1];
      ExpiredNamesExactly(init, now, retentionDays, name);
      if exists i :: 0 <= i < |init| && init[i].name == name && Expired(init[i], now, retentionDays) {
        var i :| 0 <= i < |init| && init[i].name == name && Expired(init[i], now, retentionDays);
        assert entries[i] == init[i];
      }
    }
  }

  /** The age boundary is strict: a file exactly as old as the window stays,
      one nanosecond older goes. */
  lemma RetentionBoundary(name: string, now: Instant, retentionDays: int)
    ensures !Expired(Entry(name, false, Some(now - retentionDays * NANOS_PER_DAY)), now, retentionDays)
    ensures Expired(Entry(name, false, Some(now - retentionDays * NANOS_PER_DAY - 1)), now, retentionDays)
  {
  }

  /** One purge pass over a directory listing (absent when reading the
      directory failed). Returns the names of the files it removes. */
  method RotateLogs(listing: Option<seq<Entry>>, now: Instant, retentionDays: int)
    returns (removed: seq<string>)
    ensures listing.None? ==> removed == []
    ensures listing.Some? ==> removed == ExpiredNames(listing.value, now, retentionDays)
  {
    removed := [];
    if listing.None? {
      return;
    }
    var files := listing.value;
    var i := 0;
    while i < |files|
      invariant 0 <= i <= |files|
      invariant removed == ExpiredNames(files[..i], now, retentionDays)
    {
      assert files[..i + 1][..i] == files[..i];
      var file := files[i];
      i := i + 1;
      if file.isDir {
        continue;
      }
      if file.modTime.None? {
        continue;
      }
      if now - file.modTime.value > retentionDays * NANOS_PER_DAY {
        removed := removed + [file.name];
      }
    }
    assert files[..|files|] == files;
  }
}
