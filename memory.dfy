/**
 * The validated memory store (src/memory.rs): core-memory allow-lists, the
 * `YYYY-MM-DD` / `YYYY-Wnn` / `YYYY-MM` validators that guard every derived
 * path, daily-log append and search, and weekly / monthly summaries, over
 * the memory directory of module Store.
 *
 * The validators are stated on chars; since each of them constrains every position
 * to an ASCII char, a string with a multi-byte char fails them exactly as its
 * UTF-8 bytes fail the byte checks of the source.
 */
module Memory {
  import opened Wrappers
  import opened Text
  import opened Store

  datatype MemError = Invalid(message: string) | Io(message: string)

  const CoreFiles: seq<string> := ["identity.md", "user.md", "state.md"]
  const WritableCoreFiles: seq<string> := ["user.md", "state.md"]

  // ============================================================ validation

  function ValidateCoreRead(filename: string): Result<(), MemError> {
    if filename in CoreFiles then Ok(()) else Err(Invalid("Invalid core memory file: " + filename))
  }

  function ValidateCoreWrite(filename: string): Result<(), MemError> {
    if filename in WritableCoreFiles then Ok(()) else Err(Invalid("Cannot write to core memory file: " + filename))
  }

  /** Exactly the three core files are readable and exactly user.md and state.md writable; writable implies readable. */
  lemma CoreAllowLists(filename: string)
    ensures ValidateCoreRead(filename).Ok? <==> filename == "identity.md" || filename == "user.md" || filename == "state.md"
    ensures ValidateCoreWrite(filename).Ok? <==> filename == "user.md" || filename == "state.md"
    ensures ValidateCoreWrite(filename).Ok? ==> ValidateCoreRead(filename).Ok?
  {
  }

  predicate IsDigit(c: char) {
    '0' <= c <= '9'
  }

  predicate AllDigits(s: string) {
    forall i :: 0 <= i < |s| ==> IsDigit(s[i])
  }

  function DigitValue(c: char): nat
    requires IsDigit(c)
  {
    c as int - '0' as int
  }

  /** `s.parse::<u32>()` of two ASCII digits. */
  function TwoDigitValue(a: char, b: char): nat
    requires IsDigit(a) && IsDigit(b)
  {
    10 * DigitValue(a) + DigitValue(b)
  }

  function ValidateDate(date: string): Result<(), MemError> {
    if |date| != 10 || date[4] != '-' || date[7] != '-'
       || !AllDigits(date[..4]) || !AllDigits(date[5..7]) || !AllDigits(date[8..10])
    then Err(Invalid("Invalid date format (expected YYYY-MM-DD): " + date))
    else
      var month := TwoDigitValue(date[5], date[6]);
      var day := TwoDigitValue(date[8], date[9]);
      if !(1 <= month <= 12) || !(1 <= day <= 31) then Err(Invalid("Invalid date value: " + date))
      else Ok(())
  }

  function ValidateWeekId(id: string): Result<(), MemError> {
    if |id| != 8 || id[4] != '-' || id[5] != 'W' || !AllDigits(id[..4]) || !AllDigits(id[6..8])
    then Err(Invalid("Invalid week id (expected YYYY-Wnn): " + id))
    else
      var week := TwoDigitValue(id[6], id[7]);
      if !(1 <= week <= 53) then Err(Invalid("Invalid week number: " + id))
      else Ok(())
  }

  function ValidateMonthId(id: string): Result<(), MemError> {
    if |id| != 7 || id[4] != '-' || !AllDigits(id[..4]) || !AllDigits(id[5..7])
    then Err(Invalid("Invalid month id (expected YYYY-MM): " + id))
    else
      var month := TwoDigitValue(id[5], id[6]);
      if !(1 <= month <= 12) then Err(Invalid("Invalid month number: " + id))
      else Ok(())
  }

  // --------------------------------- reference definitions of the id formats

  /** `n` written with exactly two digits. */
  function Pad2(n: nat): string
    requires n < 100
  {
    [DigitChar(n / 10), DigitChar(n % 10)]
  }

  /** `n` written with exactly four digits. */
  function Pad4(n: nat): string
    requires n < 10000
  {
    [DigitChar(n / 1000), DigitChar(n / 100 % 10), DigitChar(n / 10 % 10), DigitChar(n % 10)]
  }

  function DateText(y: nat, m: nat, d: nat): string
    requires y < 10000 && m < 100 && d < 100
  {
    Pad4(y) + "-" + Pad2(m) + "-" + Pad2(d)
  }

  function WeekText(y: nat, w: nat): string
    requires y < 10000 && w < 100
  {
    Pad4(y) + "-W" + Pad2(w)
  }

  function MonthText(y: nat, m: nat): string
    requires y < 10000 && m < 100
  {
    Pad4(y) + "-" + Pad2(m)
  }

  /** A calendar-shaped date: any four-digit year, month 1..12, day 1..31 (no per-month day limit). */
  ghost predicate IsDateText(s: string) {
    exists y: nat, m: nat, d: nat | y < 10000 && 1 <= m <= 12 && 1 <= d <= 31 :: s == DateText(y, m, d)
  }

  ghost predicate IsWeekText(s: string) {
    exists y: nat, w: nat | y < 10000 && 1 <= w <= 53 :: s == WeekText(y, w)
  }

  ghost predicate IsMonthText(s: string) {
    exists y: nat, m: nat | y < 10000 && 1 <= m <= 12 :: s == MonthText(y, m)
  }

  lemma DigitRoundTrip(d: nat)
    requires d < 10
    ensures IsDigit(DigitChar(d)) && DigitValue(DigitChar(d)) == d
  {
  }

  lemma CharRoundTrip(c: char)
    requires IsDigit(c)
    ensures DigitValue(c) < 10 && DigitChar(DigitValue(c)) == c
  {
  }

  lemma Pad2Digits(n: nat)
    requires n < 100
    ensures AllDigits(Pad2(n)) && TwoDigitValue(Pad2(n)[0], Pad2(n)[1]) == n
  {
    DigitRoundTrip(n / 10);
    DigitRoundTrip(n % 10);
  }

  lemma Pad4Digits(n: nat)
    requires n < 10000
    ensures AllDigits(Pad4(n))
  {
    DigitRoundTrip(n / 1000);
    DigitRoundTrip(n / 100 % 10);
    DigitRoundTrip(n / 10 % 10);
    DigitRoundTrip(n % 10);
  }

  /** Two digits are the rendering of their value. */
  lemma Pad2OfDigits(a: char, b: char)
    requires IsDigit(a) && IsDigit(b)
    ensures TwoDigitValue(a, b) < 100 && Pad2(TwoDigitValue(a, b)) == [a, b]
  {
    var n := TwoDigitValue(a, b);
    assert n / 10 == DigitValue(a) && n % 10 == DigitValue(b);
    CharRoundTrip(a);
    CharRoundTrip(b);
  }

  /** Four digits are the rendering of their value. */
  lemma Pad4OfDigits(s: string) returns (y: nat)
    requires |s| == 4 && AllDigits(s)
    ensures y < 10000 && Pad4(y) == s
  {
    var a, b, c, d := DigitValue(s[0]), DigitValue(s[1]), DigitValue(s[2]), DigitValue(s[3]);
    y := 1000 * a + 100 * b + 10 * c + d;
    assert y / 1000 == a;
    assert y / 100 == 10 * a + b;
    assert y / 100 % 10 == b;
    assert y / 10 == 100 * a + 10 * b + c;
    assert y / 10 % 10 == c;
    assert y % 10 == d;
    CharRoundTrip(s[0]);
    CharRoundTrip(s[1]);
    CharRoundTrip(s[2]);
    CharRoundTrip(s[3]);
  }

  /** What validate_date accepts is the rendering of a (year, month, day). */
  lemma DateValidText(s: string) returns (y: nat, m: nat, d: nat)
    requires ValidateDate(s).Ok?
    ensures y < 10000 && 1 <= m <= 12 && 1 <= d <= 31 && s == DateText(y, m, d)
  {
    y := Pad4OfDigits(s[..4]);
    m, d := TwoDigitValue(s[5], s[6]), TwoDigitValue(s[8], s[9]);
    Pad2OfDigits(s[5], s[6]);
    Pad2OfDigits(s[8], s[9]);
    assert s[5..7] == [s[5], s[6]] && s[8..10] == [s[8], s[9]];
    assert s == Pad4(y) + "-" + Pad2(m) + "-" + Pad2(d);
  }

  /** Every rendering of a (year, month 1..12, day 1..31) passes validate_date. */
  lemma DateTextValid(y: nat, m: nat, d: nat)
    requires y < 10000 && 1 <= m <= 12 && 1 <= d <= 31
    ensures ValidateDate(DateText(y, m, d)).Ok?
  {
    var s := DateText(y, m, d);
    Pad4Digits(y);
    Pad2Digits(m);
    Pad2Digits(d);
    assert s[..4] == Pad4(y) && s[5..7] == Pad2(m) && s[8..10] == Pad2(d);
  }

  /** validate_date accepts exactly the renderings of (year, month 1..12, day 1..31). */
  lemma DateValidIff(s: string)
    ensures ValidateDate(s).Ok? <==> IsDateText(s)
  {
    if ValidateDate(s).Ok? {
      var y, m, d := DateValidText(s);
    }
    if IsDateText(s) {
      var y: nat, m: nat, d: nat :| y < 10000 && 1 <= m <= 12 && 1 <= d <= 31 && s == DateText(y, m, d);
      DateTextValid(y, m, d);
    }
  }

  lemma WeekValidText(s: string) returns (y: nat, w: nat)
    requires ValidateWeekId(s).Ok?
    ensures y < 10000 && 1 <= w <= 53 && s == WeekText(y, w)
  {
    y := Pad4OfDigits(s[..4]);
    w := TwoDigitValue(s[6], s[7]);
    Pad2OfDigits(s[6], s[7]);
    assert s == s[..4] + "-W" + s[6..8];
  }

  lemma WeekTextValid(y: nat, w: nat)
    requires y < 10000 && 1 <= w <= 53
    ensures ValidateWeekId(WeekText(y, w)).Ok?
  {
    var s := WeekText(y, w);
    Pad4Digits(y);
    Pad2Digits(w);
    assert s[..4] == Pad4(y) && s[6..8] == Pad2(w);
  }

  /** validate_week_id accepts exactly the renderings of (year, week 1..53). */
  lemma WeekValidIff(s: string)
    ensures ValidateWeekId(s).Ok? <==> IsWeekText(s)
  {
    if ValidateWeekId(s).Ok? {
      var y, w := WeekValidText(s);
    }
    if IsWeekText(s) {
      var y: nat, w: nat :| y < 10000 && 1 <= w <= 53 && s == WeekText(y, w);
      WeekTextValid(y, w);
    }
  }

  lemma MonthValidText(s: string) returns (y: nat, m: nat)
    requires ValidateMonthId(s).Ok?
    ensures y < 10000 && 1 <= m <= 12 && s == MonthText(y, m)
  {
    y := Pad4OfDigits(s[..4]);
    m := TwoDigitValue(s[5], s[6]);
    Pad2OfDigits(s[5], s[6]);
    assert s == s[..4] + "-" + s[5..7];
  }

  lemma MonthTextValid(y: nat, m: nat)
    requires y < 10000 && 1 <= m <= 12
    ensures ValidateMonthId(MonthText(y, m)).Ok?
  {
    var s := MonthText(y, m);
    Pad4Digits(y);
    Pad2Digits(m);
    assert s[..4] == Pad4(y) && s[5..7] == Pad2(m);
  }

  /** validate_month_id accepts exactly the renderings of (year, month 1..12). */
  lemma MonthValidIff(s: string)
    ensures ValidateMonthId(s).Ok? <==> IsMonthText(s)
  {
    if ValidateMonthId(s).Ok? {
      var y, m := MonthValidText(s);
    }
    if IsMonthText(s) {
      var y: nat, m: nat :| y < 10000 && 1 <= m <= 12 && s == MonthText(y, m);
      MonthTextValid(y, m);
    }
  }

  /** The unit tests of the core allow-lists, as facts about the model. */
  lemma CoreValidatorExamples()
    ensures ValidateCoreRead("identity.md").Ok? && ValidateCoreRead("user.md").Ok? && ValidateCoreRead("state.md").Ok?
    ensures ValidateCoreRead("../etc/passwd").Err? && ValidateCoreRead("../../secret").Err? && ValidateCoreRead("").Err?
    ensures ValidateCoreWrite("user.md").Ok? && ValidateCoreWrite("state.md").Ok?
    ensures ValidateCoreWrite("identity.md").Err? && ValidateCoreWrite("../hack.md").Err?
  {
  }

  /** The unit tests of validate_date. */
  lemma DateValidatorExamples()
    ensures ValidateDate("2026-02-17").Ok? && ValidateDate("2000-01-01").Ok?
    ensures ValidateDate("../../../etc").Err? && ValidateDate("2026-2-17").Err? && ValidateDate("").Err?
    ensures ValidateDate("2026-02-17/../../x").Err?
  {
  }

  /** The range cases of the unit tests of validate_date. */
  lemma DateRangeExamples()
    ensures ValidateDate("2026-00-01").Err? && ValidateDate("2026-13-01").Err? && ValidateDate("2026-01-00").Err?
    ensures ValidateDate("2026-01-32").Err? && ValidateDate("2026-99-99").Err?
  {
  }

  /** The unit tests of validate_week_id. */
  lemma WeekValidatorExamples()
    ensures ValidateWeekId("2026-W08").Ok? && ValidateWeekId("2026-W52").Ok? && ValidateWeekId("2026-W53").Ok?
    ensures ValidateWeekId("../W08").Err? && ValidateWeekId("2026-08").Err? && ValidateWeekId("").Err?
    ensures ValidateWeekId("2026-W00").Err? && ValidateWeekId("2026-W54").Err?
  {
  }

  /** The unit tests of validate_month_id. */
  lemma MonthValidatorExamples()
    ensures ValidateMonthId("2026-02").Ok? && ValidateMonthId("2000-12").Ok?
    ensures ValidateMonthId("../../xx").Err? && ValidateMonthId("2026-2").Err? && ValidateMonthId("").Err?
    ensures ValidateMonthId("2026-00").Err? && ValidateMonthId("2026-13").Err?
  {
  }

  // ============================================================ paths

  /** An id made of digits, '-' and 'W' only names one plain file inside its directory. */
  predicate SafeName(id: string) {
    forall i :: 0 <= i < |id| ==> id[i] != '/' && id[i] != '.'
  }

  lemma DateIdSafe(id: string)
    requires ValidateDate(id).Ok?
    ensures SafeName(id)
  {
    forall i | 0 <= i < |id| ensures id[i] != '/' && id[i] != '.' {
      if i < 4 { assert IsDigit(id[..4][i]); }
      else if 5 <= i < 7 { assert IsDigit(id[5..7][i - 5]); }
      else if 8 <= i { assert IsDigit(id[8..10][i - 8]); }
    }
  }

  lemma WeekIdSafe(id: string)
    requires ValidateWeekId(id).Ok?
    ensures SafeName(id)
  {
    forall i | 0 <= i < |id| ensures id[i] != '/' && id[i] != '.' {
      if i < 4 { assert IsDigit(id[..4][i]); }
      else if 6 <= i { assert IsDigit(id[6..8][i - 6]); }
    }
  }

  lemma MonthIdSafe(id: string)
    requires ValidateMonthId(id).Ok?
    ensures SafeName(id)
  {
    forall i | 0 <= i < |id| ensures id[i] != '/' && id[i] != '.' {
      if i < 4 { assert IsDigit(id[..4][i]); }
      else if 5 <= i { assert IsDigit(id[5..7][i - 5]); }
    }
  }

  /** Every id a validator accepts is free of '/' and '.', so its derived path stays in its directory. */
  lemma ValidatedIdsAreSafe(id: string)
    ensures ValidateDate(id).Ok? ==> SafeName(id)
    ensures ValidateWeekId(id).Ok? ==> SafeName(id)
    ensures ValidateMonthId(id).Ok? ==> SafeName(id)
  {
    if ValidateDate(id).Ok? { DateIdSafe(id); }
    if ValidateWeekId(id).Ok? { WeekIdSafe(id); }
    if ValidateMonthId(id).Ok? { MonthIdSafe(id); }
  }

  /** A safe, non-empty id gives a file directly inside `dir`, with extension "md" and stem `id`. */
  lemma SafeIdPath(dir: string, id: string)
    requires SafeName(id) && id != []
    ensures var name := id + ".md";
      && dir + id + ".md" == dir + name
      && '/' !in name
      && Extension(name) == Some("md") && FileStem(name) == id
  {
    var name := id + ".md";
    assert '.' !in id;
    StemAndExtension(id, "md");
    assert name == id + "." + "md";
    assert forall i :: 0 <= i < |name| ==> name[i] != '/' by {
      forall i | 0 <= i < |name| ensures name[i] != '/' {
        if i < |id| { assert name[i] == id[i]; }
      }
    }
  }

  // ============================================================ core memory

  function ReadCore(files: Files, filename: string): (r: Result<string, MemError>)
    ensures ValidateCoreRead(filename).Err? ==> r == Err(ValidateCoreRead(filename).error)
    ensures r.Ok? <==> ValidateCoreRead(filename).Ok? && CorePath(filename) in files
    ensures r.Ok? ==> r.value == files[CorePath(filename)]
  {
    match ValidateCoreRead(filename)
    case Err(e) => Err(e)
    case Ok(_) =>
      var path := CorePath(filename);
      if path in files then Ok(files[path]) else Err(Io("Failed to read core memory: " + path))
  }

  /** write_core: the new directory, or the validation error (nothing written). */
  function WriteCoreTo(files: Files, filename: string, content: string): Result<Files, MemError> {
    match ValidateCoreWrite(filename)
    case Err(e) => Err(e)
    case Ok(_) => Ok(files[CorePath(filename) := content])
  }

  /** Writing a writable core file then reading it gives the content back; every other path keeps its contents. */
  lemma WriteCoreThenRead(files: Files, filename: string, content: string)
    ensures WriteCoreTo(files, filename, content).Ok? <==> ValidateCoreWrite(filename).Ok?
    ensures WriteCoreTo(files, filename, content).Ok? ==>
      && ReadCore(WriteCoreTo(files, filename, content).value, filename) == Ok(content)
      && forall p :: p != CorePath(filename) ==>
           (p in WriteCoreTo(files, filename, content).value <==> p in files)
           && (p in files ==> WriteCoreTo(files, filename, content).value[p] == files[p])
  {
  }

  // ============================================================ daily logs

  function ReadDailyLog(files: Files, date: string): (r: Result<Option<string>, MemError>)
    ensures ValidateDate(date).Err? ==> r == Err(ValidateDate(date).error)
    ensures ValidateDate(date).Ok? ==> r.Ok? && (r.value.Some? <==> DailyPath(date) in files)
    ensures r.Ok? && r.value.Some? ==> r.value.value == files[DailyPath(date)]
  {
    match ValidateDate(date)
    case Err(e) => Err(e)
    case Ok(_) => if DailyPath(date) in files then Ok(Some(files[DailyPath(date)])) else Ok(None)
  }

  // ============================================================ summaries

  function ReadWeeklySummary(files: Files, id: string): (r: Result<Option<string>, MemError>)
    ensures ValidateWeekId(id).Err? ==> r == Err(ValidateWeekId(id).error)
    ensures ValidateWeekId(id).Ok? ==> r.Ok? && (r.value.Some? <==> WeeklyPath(id) in files)
    ensures r.Ok? && r.value.Some? ==> r.value.value == files[WeeklyPath(id)]
  {
    match ValidateWeekId(id)
    case Err(e) => Err(e)
    case Ok(_) => if WeeklyPath(id) in files then Ok(Some(files[WeeklyPath(id)])) else Ok(None)
  }

  function ReadMonthlySummary(files: Files, id: string): (r: Result<Option<string>, MemError>)
    ensures ValidateMonthId(id).Err? ==> r == Err(ValidateMonthId(id).error)
    ensures ValidateMonthId(id).Ok? ==> r.Ok? && (r.value.Some? <==> MonthlyPath(id) in files)
    ensures r.Ok? && r.value.Some? ==> r.value.value == files[MonthlyPath(id)]
  {
    match ValidateMonthId(id)
    case Err(e) => Err(e)
    case Ok(_) => if MonthlyPath(id) in files then Ok(Some(files[MonthlyPath(id)])) else Ok(None)
  }

  function WriteWeeklyTo(files: Files, id: string, content: string): Result<Files, MemError> {
    match ValidateWeekId(id)
    case Err(e) => Err(e)
    case Ok(_) => Ok(files[WeeklyPath(id) := content])
  }

  function WriteMonthlyTo(files: Files, id: string, content: string): Result<Files, MemError> {
    match ValidateMonthId(id)
    case Err(e) => Err(e)
    case Ok(_) => Ok(files[MonthlyPath(id) := content])
  }

  /** A weekly write reads back, leaves every monthly summary and every other week unchanged. */
  lemma WeeklyWriteThenRead(files: Files, id: string, content: string, other: string, month: string)
    requires ValidateWeekId(id).Ok?
    requires other != id
    ensures var f := WriteWeeklyTo(files, id, content).value;
      && ReadWeeklySummary(f, id) == Ok(Some(content))
      && ReadWeeklySummary(f, other) == ReadWeeklySummary(files, other)
      && ReadMonthlySummary(f, month) == ReadMonthlySummary(files, month)
  {
    SummaryNamespacesDisjoint(id, month);
    PathsInjective(id, other);
  }

  /** A monthly write reads back, leaves every weekly summary and every other month unchanged. */
  lemma MonthlyWriteThenRead(files: Files, id: string, content: string, other: string, week: string)
    requires ValidateMonthId(id).Ok?
    requires other != id
    ensures var f := WriteMonthlyTo(files, id, content).value;
      && ReadMonthlySummary(f, id) == Ok(Some(content))
      && ReadMonthlySummary(f, other) == ReadMonthlySummary(files, other)
      && ReadWeeklySummary(f, week) == ReadWeeklySummary(files, week)
  {
    SummaryNamespacesDisjoint(week, id);
    PathsInjective(id, other);
  }

  // ============================================================ the manager

  /** `MemoryManager`: the handle through which the memory directory is read and changed. */
  class MemoryManager {
    var files: Files

    constructor (files: Files)
      ensures this.files == files
    {
      this.files := files;
    }

    method WriteCore(filename: string, content: string) returns (r: Result<(), MemError>)
      modifies this
      ensures ValidateCoreWrite(filename).Err? ==> r == Err(ValidateCoreWrite(filename).error) && files == old(files)
      ensures ValidateCoreWrite(filename).Ok? ==> r == Ok(()) && files == old(files)[CorePath(filename) := content]
    {
      match WriteCoreTo(files, filename, content)
      case Err(e) => r := Err(e);
      case Ok(f) => files := f; r := Ok(());
    }

    /** append_log with the local date passed in as `today`. */
    method AppendLog(today: string, entry: string)
      modifies this
      ensures files == old(files)[DailyPath(today) := AppendedLog(old(files), today, entry)]
    {
      var path := DailyPath(today);
      var content := if path in files then files[path] else "";
      if content == "" {
        content := LogHeader(today);
      }
      content := content + "- " + entry + "\n";
      files := files[path := content];
    }

    method WriteWeeklySummary(id: string, content: string) returns (r: Result<(), MemError>)
      modifies this
      ensures ValidateWeekId(id).Err? ==> r == Err(ValidateWeekId(id).error) && files == old(files)
      ensures ValidateWeekId(id).Ok? ==> r == Ok(()) && files == old(files)[WeeklyPath(id) := content]
    {
      match WriteWeeklyTo(files, id, content)
      case Err(e) => r := Err(e);
      case Ok(f) => files := f; r := Ok(());
    }

    method WriteMonthlySummary(id: string, content: string) returns (r: Result<(), MemError>)
      modifies this
      ensures ValidateMonthId(id).Err? ==> r == Err(ValidateMonthId(id).error) && files == old(files)
      ensures ValidateMonthId(id).Ok? ==> r == Ok(()) && files == old(files)[MonthlyPath(id) := content]
    {
      match WriteMonthlyTo(files, id, content)
      case Err(e) => r := Err(e);
      case Ok(f) => files := f; r := Ok(());
    }

    /** search_logs: the nested loops over the sorted listing and each file's lines. */
    method SearchLogs(query: string) returns (results: seq<string>)
      ensures results == SearchHits(files, query)
    {
      results := SearchDailyLogs(files, query);
    }
  }
}
