/** ISO 8601 durations and repeating intervals of timers, printed and parsed. */
module Durations {
  import opened Options

  const MAX_U64: nat := 0xFFFF_FFFF_FFFF_FFFF
  const MAX_U32: nat := 0xFFFF_FFFF
  const MAX_TIMER_MS: nat := 366 * 24 * 60 * 60 * 1000
  const MAX_CYCLE_FIRES: nat := 1000

  const DAY: nat := 86_400_000
  const HOUR: nat := 3_600_000
  const MINUTE: nat := 60_000
  const SECOND: nat := 1_000

  datatype Fault = BadNumber | UnknownUnit | Overflow | Zero | TooLong | BadCycle | TooManyFires

  datatype Result<T> = Ok(value: T) | Err(fault: Fault)

  // ---------------------------------------------------------------- numerals

  predicate IsDigit(c: char) {
    '0' <= c <= '9'
  }

  predicate AllDigits(s: string) {
    forall i :: 0 <= i < |s| ==> IsDigit(s[i])
  }

  function Digit(k: nat): (c: char)
    requires k < 10
    ensures IsDigit(c) && c as int - '0' as int == k
  {
    ('0' as int + k) as char
  }

  /** A number in decimal. */
  function Decimal(n: nat): (s: string)
    ensures s != "" && AllDigits(s)
  {
    if n < 10 then [Digit(n)] else Decimal(n / 10) + [Digit(n % 10)]
  }

  function DigitOf(c: char): (k: nat)
    requires IsDigit(c)
  {
    c as int - '0' as int
  }

  /** The number that the digits from `lo` to `hi` form. */
  function ValueIn(s: string, lo: nat, hi: nat): nat
    requires lo <= hi <= |s| && forall i :: lo <= i < hi ==> IsDigit(s[i])
    decreases hi
  {
    if lo == hi then 0 else ValueIn(s, lo, hi - 1) * 10 + DigitOf(s[hi - 1])
  }

  lemma SameDigits(s: string, t: string, at: nat, lo: nat, hi: nat)
    requires lo <= hi <= |s| && at + hi <= |t| && forall i :: lo <= i < hi ==> IsDigit(s[i]) && t[at + i] == s[i]
    ensures (forall i :: at + lo <= i < at + hi ==> IsDigit(t[i])) && ValueIn(t, at + lo, at + hi) == ValueIn(s, lo, hi)
    decreases hi
  {
    forall i | at + lo <= i < at + hi ensures IsDigit(t[i]) { assert t[at + (i - at)] == s[i - at]; }
    if lo < hi { SameDigits(s, t, at, lo, hi - 1); }
  }

  lemma {:induction false} DecimalValue(n: nat)
    ensures ValueIn(Decimal(n), 0, |Decimal(n)|) == n
  {
    var s := Decimal(n);
    if n >= 10 {
      var t := Decimal(n / 10);
      DecimalValue(n / 10);
      SameDigits(t, s, 0, 0, |t|);
    }
  }

  /** A run of digits as a number of at most `max`. */
  function NumberIn(s: string, lo: nat, hi: nat, max: nat): Option<nat>
    requires lo <= hi <= |s|
  {
    if lo == hi || exists i :: lo <= i < hi && !IsDigit(s[i]) then None
    else if ValueIn(s, lo, hi) > max then None
    else Some(ValueIn(s, lo, hi))
  }

  /** The same with an optional plus sign. */
  function SignedIn(s: string, lo: nat, hi: nat, max: nat): Option<nat>
    requires lo <= hi <= |s|
  {
    if lo < hi && s[lo] == '+' then NumberIn(s, lo + 1, hi, max) else NumberIn(s, lo, hi, max)
  }

  // ---------------------------------------------------------------- text

  /** The characters that Unicode calls white space. */
  predicate IsSpace(c: char) {
    || '\U{0009}' <= c <= '\U{000D}' || c == ' ' || c == '\U{0085}' || c == '\U{00A0}' || c == '\U{1680}'
    || '\U{2000}' <= c <= '\U{200A}' || c == '\U{2028}' || c == '\U{2029}' || c == '\U{202F}' || c == '\U{205F}' ||
       c == '\U{3000}'
  }

  /** The first position from `i` on that holds no white space. */
  function Skip(s: string, i: nat): (k: nat)
    requires i <= |s|
    ensures i <= k <= |s|
    decreases |s| - i
  {
    if i < |s| && IsSpace(s[i]) then Skip(s, i + 1) else i
  }

  /** Where the text ends when its last white space, back to `lo`, is left off. */
  function Back(s: string, lo: nat, j: nat): (k: nat)
    requires lo <= j <= |s|
    ensures lo <= k <= j
    decreases j
  {
    if j > lo && IsSpace(s[j - 1]) then Back(s, lo, j - 1) else j
  }

  /** The first position of `c` from `i` on and before `hi`, else `hi`. */
  function Find(s: string, c: char, i: nat, hi: nat): (k: nat)
    requires i <= hi <= |s|
    ensures i <= k <= hi && (k < hi ==> s[k] == c) && forall j :: i <= j < k ==> s[j] != c
    decreases hi - i
  {
    if i == hi || s[i] == c then i else Find(s, c, i + 1, hi)
  }

  // ---------------------------------------------------------------- parsing

  /** What a scan has come to: the sum so far and the number formed by digits not yet used. */
  datatype Scan = Scan(total: nat, number: Option<nat>) | Failed(fault: Fault)

  /** Adds a component, unless 64 bits do not hold it or the sum. */
  function Add(total: nat, amount: nat): Scan {
    if amount > MAX_U64 || total + amount > MAX_U64 then Failed(Overflow) else Scan(total + amount, None)
  }

  /** What `n` of the unit `c` are worth. */
  function Worth(time: bool, n: nat, c: char): Option<nat> {
    if !time then (if c == 'D' then Some(n * DAY) else None)
    else if c == 'H' then Some(n * HOUR)
    else if c == 'M' then Some(n * MINUTE)
    else if c == 'S' then Some(n * SECOND)
    else None
  }

  function Gather(s: Scan, c: char): Scan
    requires s.Scan? && IsDigit(c)
  {
    s.(number := Some((if s.number.Some? then s.number.value else 0) * 10 + DigitOf(c)))
  }

  /** A number that 64 bits hold. */
  predicate Readable(number: Option<nat>) {
    number.Some? && number.value <= MAX_U64
  }

  /** One character of the date part. Anything but a digit or a D is passed over. */
  function DateChar(s: Scan, c: char): Scan {
    if s.Failed? then s
    else if IsDigit(c) then Gather(s, c)
    else if c != 'D' then s
    else if !Readable(s.number) then Failed(BadNumber)
    else Add(s.total, s.number.value * DAY)
  }

  /** One character of the time part. */
  function TimeChar(s: Scan, c: char): Scan {
    if s.Failed? then s
    else if IsDigit(c) then Gather(s, c)
    else if !Readable(s.number) then Failed(BadNumber)
    else match Worth(true, s.number.value, c) case None => Failed(UnknownUnit) case Some(amount) => Add(s.total, amount)
  }

  function Char(time: bool, s: Scan, c: char): Scan {
    if time then TimeChar(s, c) else DateChar(s, c)
  }

  /** The characters of `text` from `lo` to `hi`, as a date part or a time part. */
  function Scanned(time: bool, s: Scan, text: string, lo: nat, hi: nat): Scan
    requires lo <= hi <= |text|
    decreases hi
  {
    if lo == hi then s else Char(time, Scanned(time, s, text, lo, hi - 1), text[hi - 1])
  }

  function Bounded(ms: nat): (r: Result<nat>)
    ensures r.Ok? ==> r.value == ms && 1 <= ms <= MAX_TIMER_MS
    ensures r.Ok? <==> 1 <= ms <= MAX_TIMER_MS
  {
    if ms == 0 then Err(Zero) else if ms > MAX_TIMER_MS then Err(TooLong) else Ok(ms)
  }

  /** Between two parts the digits not used are dropped. */
  function Anew(s: Scan): Scan {
    if s.Failed? then s else s.(number := None)
  }

  function Outcome(s: Scan): Result<nat> {
    if s.Failed? then Err(s.fault) else Bounded(s.total)
  }

  /** The sum of the parts of a duration that stands after its P between `lo` and `hi`. */
  function Summed(text: string, lo: nat, hi: nat): Scan
    requires lo <= hi <= |text|
  {
    var t := Find(text, 'T', lo, hi);
    var days := Anew(Scanned(false, Scan(0, None), text, lo, t));
    if t == hi then days else Scanned(true, days, text, t + 1, hi)
  }

  /** What the text of a duration stands for. */
  function Duration(text: string): Result<nat> {
    var lo := Skip(text, 0);
    var hi := Back(text, lo, |text|);
    if lo == hi || text[lo] != 'P' then
      match SignedIn(text, lo, hi, MAX_U64) case None => Err(BadNumber) case Some(ms) => Bounded(ms)
    else Outcome(Summed(text, lo + 1, hi))
  }

  /** A scan that has failed stays failed. */
  lemma {:induction false} StaysFailed(time: bool, s: Scan, text: string, lo: nat, mid: nat, hi: nat)
    requires lo <= mid <= hi <= |text| && Scanned(time, s, text, lo, mid).Failed?
    ensures Scanned(time, s, text, lo, hi) == Scanned(time, s, text, lo, mid)
    decreases hi
  {
    if mid < hi { StaysFailed(time, s, text, lo, mid, hi - 1); }
  }

  /** Adds up the days of the date part. */
  method ScanDate(text: string, lo: nat, hi: nat) returns (r: Scan)
    requires lo <= hi <= |text|
    ensures r == Scanned(false, Scan(0, None), text, lo, hi) && (r.Scan? ==> r.total <= MAX_U64)
  {
    r := Scan(0, None);
    for i := lo to hi
      invariant r.Scan? && r.total <= MAX_U64 && Scanned(false, Scan(0, None), text, lo, i) == r
    {
      var c := text[i];
      if IsDigit(c) {
        r := Gather(r, c);
      } else if c == 'D' {
        r := if Readable(r.number) then Add(r.total, r.number.value * DAY) else Failed(BadNumber);
        if r.Failed? { StaysFailed(false, Scan(0, None), text, lo, i + 1, hi); return; }
      }
    }
  }

  /** Adds the hours, minutes and seconds of the time part. */
  method ScanTime(from: nat, text: string, lo: nat, hi: nat) returns (r: Scan)
    requires from <= MAX_U64 && lo <= hi <= |text|
    ensures r == Scanned(true, Scan(from, None), text, lo, hi) && (r.Scan? ==> r.total <= MAX_U64)
  {
    r := Scan(from, None);
    for i := lo to hi
      invariant r.Scan? && r.total <= MAX_U64 && Scanned(true, Scan(from, None), text, lo, i) == r
    {
      var c := text[i];
      if IsDigit(c) {
        r := Gather(r, c);
      } else {
        if Readable(r.number) {
          var amount := Worth(true, r.number.value, c);
          r := if amount.None? then Failed(UnknownUnit) else Add(r.total, amount.value);
        } else {
          r := Failed(BadNumber);
        }
        if r.Failed? { StaysFailed(true, Scan(from, None), text, lo, i + 1, hi); return; }
      }
    }
  }

  /** Parses a duration. Whatever the text, no sum exceeds 64 bits on the way, and what is
      accepted lies between one millisecond and the bound of timers. */
  method ParseDuration(text: string) returns (r: Result<nat>)
    ensures r == Duration(text)
    ensures r.Ok? ==> 1 <= r.value <= MAX_TIMER_MS
  {
    var lo := Skip(text, 0);
    var hi := Back(text, lo, |text|);
    if lo == hi || text[lo] != 'P' {
      var ms := SignedIn(text, lo, hi, MAX_U64);
      if ms.None? { return Err(BadNumber); }
      return Bounded(ms.value);
    }
    var t := Find(text, 'T', lo + 1, hi);
    var sum := ScanDate(text, lo + 1, t);
    if sum.Scan? && t < hi {
      sum := ScanTime(sum.total, text, t + 1, hi);
    } else if t < hi {
      StaysFailed(true, sum, text, t + 1, t + 1, hi);
    }
    r := Outcome(sum);
  }

  // ---------------------------------------------------------------- printing

  function Unit(n: nat, c: char): string {
    if n > 0 then Decimal(n) + [c] else ""
  }

  function Clock(hours: nat, minutes: nat, seconds: nat): string {
    Unit(hours, 'H') + Unit(minutes, 'M') + Unit(seconds, 'S')
  }

  function Timed(clock: string): string {
    if clock == "" then "" else "T" + clock
  }

  function Spelled(days: nat, hours: nat, minutes: nat, seconds: nat): string {
    "P" + Unit(days, 'D') + Timed(Clock(hours, minutes, seconds))
  }

  /** Days, hours, minutes and whole seconds, each if there are any. */
  function Printed(ms: nat): string {
    if ms == 0 then "PT0S"
    else
      var secs := ms / 1000;
      var rest := secs % 86400;
      Spelled(secs / 86400, rest / 3600, rest % 3600 / 60, rest % 3600 % 60)
  }

  lemma ClockEmpty(hours: nat, minutes: nat, seconds: nat)
    ensures Clock(hours, minutes, seconds) == "" <==> hours == 0 && minutes == 0 && seconds == 0
  {
    assert |Clock(hours, minutes, seconds)| == |Unit(hours, 'H')| + |Unit(minutes, 'M')| + |Unit(seconds, 'S')|;
  }

  method AppendUnit(text0: string, n: nat, c: char) returns (text: string)
    ensures text == text0 + Unit(n, c)
  {
    text := text0;
    if n > 0 { text := text + Decimal(n) + [c]; }
  }

  lemma Associates(a: string, b: string, c: string, d: string)
    ensures a + b + c + d == a + (b + c + d)
  {
  }

  method AppendClock(text0: string, hours: nat, minutes: nat, seconds: nat) returns (text: string)
    ensures text == text0 + Timed(Clock(hours, minutes, seconds))
  {
    text := text0;
    ClockEmpty(hours, minutes, seconds);
    if hours > 0 || minutes > 0 || seconds > 0 {
      var start := text + "T";
      text := AppendUnit(start, hours, 'H');
      text := AppendUnit(text, minutes, 'M');
      text := AppendUnit(text, seconds, 'S');
      Associates(start, Unit(hours, 'H'), Unit(minutes, 'M'), Unit(seconds, 'S'));
      assert text == start + Clock(hours, minutes, seconds);
    }
  }

  method PrintDuration(ms: nat) returns (text: string)
    ensures text == Printed(ms)
  {
    if ms == 0 { return "PT0S"; }
    var total := ms / 1000;
    var days := total / 86400;
    var remaining := total % 86400;
    var hours := remaining / 3600;
    var minutes := remaining % 3600 / 60;
    var seconds := remaining % 3600 % 60;
    text := AppendUnit("P", days, 'D');
    text := AppendClock(text, hours, minutes, seconds);
  }

  // ---------------------------------------------------------------- reading back

  /** The text holds `part` at `at`. */
  ghost predicate Holds(text: string, at: nat, part: string) {
    at + |part| <= |text| && forall i :: 0 <= i < |part| ==> text[at + i] == part[i]
  }

  lemma {:induction false} ScanSplit(time: bool, s: Scan, text: string, lo: nat, mid: nat, hi: nat)
    requires lo <= mid <= hi <= |text|
    ensures Scanned(time, s, text, lo, hi) == Scanned(time, Scanned(time, s, text, lo, mid), text, mid, hi)
    decreases hi
  {
    if mid < hi { ScanSplit(time, s, text, lo, mid, hi - 1); }
  }

  /** Digits are gathered. */
  lemma {:induction false} Gathers(time: bool, total: nat, text: string, lo: nat, hi: nat)
    requires lo < hi <= |text| && forall i :: lo <= i < hi ==> IsDigit(text[i])
    ensures Scanned(time, Scan(total, None), text, lo, hi) == Scan(total, Some(ValueIn(text, lo, hi)))
    decreases hi
  {
    if lo + 1 < hi {
      Gathers(time, total, text, lo, hi - 1);
    } else {
      assert Scanned(time, Scan(total, None), text, lo, lo) == Scan(total, None) && ValueIn(text, lo, lo) == 0;
    }
  }

  lemma CharAdds(time: bool, total: nat, n: nat, c: char, amount: nat)
    requires n <= MAX_U64 && Worth(time, n, c) == Some(amount) && total + amount <= MAX_U64
    ensures Char(time, Scan(total, Some(n)), c) == Scan(total + amount, None)
  {
    assert !IsDigit('H') && !IsDigit('M') && !IsDigit('S') && !IsDigit('D');
  }

  /** One printed component is read back. */
  lemma {:induction false} UnitRead(time: bool, total: nat, text: string, at: nat, n: nat, c: char, amount: nat)
    requires Worth(time, n, c) == Some(amount) && total + amount <= MAX_U64 && Holds(text, at, Unit(n, c))
    ensures Scanned(time, Scan(total, None), text, at, at + |Unit(n, c)|) == Scan(total + amount, None)
  {
    if n > 0 {
      var d := Decimal(n);
      assert Unit(n, c)[|d|] == c;
      forall i | 0 <= i < |d| ensures text[at + i] == d[i] { assert Unit(n, c)[i] == d[i]; }
      SameDigits(d, text, at, 0, |d|);
      DecimalValue(n);
      Gathers(time, total, text, at, at + |d|);
      CharAdds(time, total, n, c, amount);
    }
  }

  lemma HoldsParts(text: string, at: nat, a: string, b: string)
    requires Holds(text, at, a + b)
    ensures Holds(text, at, a) && Holds(text, at + |a|, b)
  {
    forall i | 0 <= i < |a| ensures text[at + i] == a[i] { assert (a + b)[i] == a[i]; }
    forall i | 0 <= i < |b| ensures text[at + |a| + i] == b[i] { assert (a + b)[|a| + i] == b[i]; }
  }

  /** At `at`, the text adds `amount` to a sum. */
  ghost predicate Adding(time: bool, total: nat, text: string, at: nat, part: string, amount: nat) {
    Holds(text, at, part) && total + amount <= MAX_U64 ==>
      Scanned(time, Scan(total, None), text, at, at + |part|) == Scan(total + amount, None)
  }

  /** Wherever it stands, `part` adds `amount`. */
  ghost predicate Adds(time: bool, part: string, amount: nat) {
    forall total: nat, text: string, at: nat {:trigger Adding(time, total, text, at, part, amount)} ::
      Adding(time, total, text, at, part, amount)
  }

  lemma UnitAdds(time: bool, n: nat, c: char, amount: nat)
    requires Worth(time, n, c) == Some(amount)
    ensures Adds(time, Unit(n, c), amount)
  {
    var part := Unit(n, c);
    forall total: nat, text: string, at: nat ensures Adding(time, total, text, at, part, amount) {
      if Holds(text, at, part) && total + amount <= MAX_U64 { UnitRead(time, total, text, at, n, c, amount); }
    }
  }

  lemma AddsBoth(time: bool, a: string, b: string, x: nat, y: nat)
    requires Adds(time, a, x) && Adds(time, b, y)
    ensures Adds(time, a + b, x + y)
  {
    var part, amount := a + b, x + y;
    forall total: nat, text: string, at: nat ensures Adding(time, total, text, at, part, amount) {
      if Holds(text, at, part) && total + amount <= MAX_U64 {
        HoldsParts(text, at, a, b);
        assert Adding(time, total, text, at, a, x) && Adding(time, total + x, text, at + |a|, b, y);
        ScanSplit(time, Scan(total, None), text, at, at + |a|, at + |a| + |b|);
      }
    }
  }

  /** A printed clock time adds its milliseconds. */
  lemma ClockAdds(hours: nat, minutes: nat, seconds: nat)
    requires hours < 24 && minutes < 60 && seconds < 60
    ensures Adds(true, Clock(hours, minutes, seconds), hours * HOUR + minutes * MINUTE + seconds * SECOND)
  {
    var a, b, c := Unit(hours, 'H'), Unit(minutes, 'M'), Unit(seconds, 'S');
    UnitAdds(true, hours, 'H', hours * HOUR);
    UnitAdds(true, minutes, 'M', minutes * MINUTE);
    UnitAdds(true, seconds, 'S', seconds * SECOND);
    AddsBoth(true, a, b, hours * HOUR, minutes * MINUTE);
    AddsBoth(true, a + b, c, hours * HOUR + minutes * MINUTE, seconds * SECOND);
  }

  // ---------------------------------------------------------------- the round trip

  predicate IsMark(c: char) {
    IsDigit(c) || c == 'P' || c == 'T' || c == 'D' || c == 'H' || c == 'M' || c == 'S'
  }

  /** Text of digits and the letters of durations. */
  ghost predicate Marks(s: string) {
    forall i :: 0 <= i < |s| ==> IsMark(s[i])
  }

  lemma MarksConcat(a: string, b: string)
    requires Marks(a) && Marks(b)
    ensures Marks(a + b)
  {
  }

  lemma UnitMarks(n: nat, c: char)
    requires IsMark(c)
    ensures Marks(Unit(n, c)) && (c != 'T' ==> 'T' !in Unit(n, c))
  {
    if n > 0 {
      var d := Decimal(n);
      forall i | 0 <= i < |d| ensures IsMark(d[i]) && d[i] != 'T' { assert IsDigit(d[i]); }
    }
  }

  lemma ClockMarks(hours: nat, minutes: nat, seconds: nat)
    ensures Marks(Clock(hours, minutes, seconds))
  {
    UnitMarks(hours, 'H');
    UnitMarks(minutes, 'M');
    UnitMarks(seconds, 'S');
    MarksConcat(Unit(hours, 'H'), Unit(minutes, 'M'));
    MarksConcat(Unit(hours, 'H') + Unit(minutes, 'M'), Unit(seconds, 'S'));
  }

  /** The text is a P, a date part and, after a T if not empty, a time part. */
  ghost predicate Laid(text: string, day: string, clock: string) {
    && text != "" && text[0] == 'P' && Holds(text, 1, day)
    && if clock == "" then |text| == 1 + |day|
       else |text| == 2 + |day| + |clock| && text[1 + |day|] == 'T' && Holds(text, 2 + |day|, clock)
  }

  lemma TextLaid(day: string, clock: string)
    ensures Laid("P" + day + Timed(clock), day, clock)
  {
    var start := "P" + day;
    var text := start + Timed(clock);
    forall i | 0 <= i < |day| ensures text[1 + i] == day[i] { assert start[1 + i] == day[i]; }
    if clock != "" {
      forall i | 0 <= i < |clock| ensures text[2 + |day| + i] == clock[i] { assert ("T" + clock)[1 + i] == clock[i]; }
    }
  }

  /** A character that `part` does not hold is not found inside it. */
  lemma Ahead(text: string, part: string, c: char, k: nat)
    requires Holds(text, 1, part) && c !in part && 1 <= k <= |text| && (k < |text| ==> text[k] == c)
    ensures k > |part|
  {
    if k <= |part| { InsidePart(text, part, k); }
  }

  lemma InsidePart(text: string, part: string, k: nat)
    requires Holds(text, 1, part) && 1 <= k <= |part|
    ensures k < |text| && text[k] in part
  {
    assert text[1 + (k - 1)] == part[k - 1];
  }

  lemma {:induction false} FindsTime(text: string, day: string, clock: string)
    requires Laid(text, day, clock) && 'T' !in day
    ensures Find(text, 'T', 1, |text|) == 1 + |day|
  {
    Ahead(text, day, 'T', Find(text, 'T', 1, |text|));
  }

  lemma SumsUp(text: string, day: string, clock: string, x: nat, y: nat)
    requires Laid(text, day, clock) && 'T' !in day && Adds(false, day, x) && Adds(true, clock, y) && x + y <= MAX_U64
    requires clock == "" ==> y == 0
    ensures Summed(text, 1, |text|).Scan? && Summed(text, 1, |text|).total == x + y
  {
    FindsTime(text, day, clock);
    assert Adding(false, 0, text, 1, day, x);
    if clock != "" { assert Adding(true, x, text, 2 + |day|, clock, y); }
  }

  lemma {:induction false} NoSpace(text: string)
    requires Marks(text)
    ensures Skip(text, 0) == 0 && Back(text, 0, |text|) == |text|
  {
    if text != "" { assert IsMark(text[0]) && IsMark(text[|text| - 1]); }
  }

  lemma DurationOf(text: string, day: string, clock: string, x: nat, y: nat)
    requires Laid(text, day, clock) && Marks(text) && 'T' !in day && Adds(false, day, x) && Adds(true, clock, y)
    requires x + y <= MAX_U64 && (clock == "" ==> y == 0)
    ensures Duration(text) == Bounded(x + y)
  {
    NoSpace(text);
    SumsUp(text, day, clock, x, y);
  }

  lemma SpelledMarks(days: nat, hours: nat, minutes: nat, seconds: nat)
    ensures Marks(Spelled(days, hours, minutes, seconds))
  {
    var clock := Clock(hours, minutes, seconds);
    UnitMarks(days, 'D');
    ClockMarks(hours, minutes, seconds);
    MarksConcat("P", Unit(days, 'D'));
    MarksConcat("T", clock);
    MarksConcat("P" + Unit(days, 'D'), Timed(clock));
  }

  /** The text of a duration whose parts add `x` and `y`. */
  ghost predicate Spells(text: string, x: nat, y: nat) {
    exists day, clock :: SpellsBy(text, day, clock, x, y)
  }

  ghost predicate SpellsBy(text: string, day: string, clock: string, x: nat, y: nat) {
    && Laid(text, day, clock) && Marks(text) && 'T' !in day
    && Adds(false, day, x) && Adds(true, clock, y) && (clock == "" ==> y == 0)
  }

  lemma SpelledSpells(days: nat, hours: nat, minutes: nat, seconds: nat)
    requires hours < 24 && minutes < 60 && seconds < 60
    ensures Spells(Spelled(days, hours, minutes, seconds), days * DAY, hours * HOUR + minutes * MINUTE +
      seconds * SECOND)
  {
    var day, clock := Unit(days, 'D'), Clock(hours, minutes, seconds);
    var x, y := days * DAY, hours * HOUR + minutes * MINUTE + seconds * SECOND;
    TextLaid(day, clock);
    SpelledMarks(days, hours, minutes, seconds);
    UnitMarks(days, 'D');
    UnitAdds(false, days, 'D', x);
    ClockAdds(hours, minutes, seconds);
    ClockEmpty(hours, minutes, seconds);
    assert SpellsBy(Spelled(days, hours, minutes, seconds), day, clock, x, y);
  }

  lemma SpellsRead(text: string, x: nat, y: nat, total: nat)
    requires Spells(text, x, y) && total == x + y <= MAX_U64
    ensures Duration(text) == Bounded(total)
  {
    var day, clock :| SpellsBy(text, day, clock, x, y);
    DurationOf(text, day, clock, x, y);
  }

  lemma ZeroRead(text: string)
    requires text == "PT0S"
    ensures Duration(text) == Err(Zero)
  {
    assert Laid(text, "", "0S");
    NoSpace(text);
    FindsTime(text, "", "0S");
    Gathers(true, 0, text, 2, 3);
    assert ValueIn(text, 2, 2) == 0 && ValueIn(text, 2, 3) == 0;
    CharAdds(true, 0, 0, 'S', 0);
  }

  /** The components of a printed duration make up its whole seconds. */
  lemma Components(ms: nat) returns (days: nat, hours: nat, minutes: nat, seconds: nat)
    requires 0 < ms
    ensures Printed(ms) == Spelled(days, hours, minutes, seconds)
    ensures days * DAY + (hours * HOUR + minutes * MINUTE + seconds * SECOND) == ms / 1000 * 1000
    ensures hours < 24 && minutes < 60 && seconds < 60
  {
    var secs := ms / 1000;
    var rest := secs % 86400;
    days, hours, minutes, seconds := secs / 86400, rest / 3600, rest % 3600 / 60, rest % 3600 % 60;
  }

  /** A duration in whole seconds, if there are any and they are within the bound of timers. */
  function Whole(ms: nat): Result<nat> {
    if ms < 1000 then Err(Zero) else if ms >= MAX_TIMER_MS + 1000 then Err(TooLong) else Ok(ms - ms % 1000)
  }

  lemma WholeIsBounded(ms: nat)
    ensures Whole(ms) == Bounded(ms / 1000 * 1000)
  {
  }

  /** The text stands for the whole seconds of `ms`. */
  ghost predicate Stands(text: string, ms: nat) {
    if ms == 0 then text == "PT0S" else exists x: nat, y: nat :: Spells(text, x, y) && x + y == ms / 1000 * 1000
  }

  lemma PrintedStands(ms: nat)
    ensures Stands(Printed(ms), ms)
  {
    if ms > 0 {
      var days, hours, minutes, seconds := Components(ms);
      SpelledSpells(days, hours, minutes, seconds);
    }
  }

  lemma StandsRead(text: string, ms: nat)
    requires Stands(text, ms) && ms <= MAX_U64
    ensures Duration(text) == Whole(ms)
  {
    WholeIsBounded(ms);
    if ms == 0 {
      ZeroRead(text);
    } else {
      var x: nat, y: nat :| Spells(text, x, y) && x + y == ms / 1000 * 1000;
      SpellsRead(text, x, y, ms / 1000 * 1000);
    }
  }

  /** Printing a duration and parsing it gives its whole seconds, for every 64-bit number of
      milliseconds. */
  lemma DurationRoundTrip(ms: nat)
    requires ms <= MAX_U64
    ensures Duration(Printed(ms)) == Whole(ms)
  {
    PrintedStands(ms);
    StandsRead(Printed(ms), ms);
  }

  // ---------------------------------------------------------------- repeating intervals

  /** What the text of a repeating interval stands for: the interval and the count. */
  function Cycle(text: string): Result<(nat, nat)> {
    var lo := Skip(text, 0);
    var hi := Back(text, lo, |text|);
    if lo == hi || text[lo] != 'R' then Err(BadCycle)
    else
      var slash := Find(text, '/', lo + 1, hi);
      if slash == hi then Err(BadCycle)
      else match SignedIn(text, lo + 1, slash, MAX_U32)
        case None => Err(BadNumber)
        case Some(fires) =>
          if fires == 0 then Err(BadCycle)
          else if fires > MAX_CYCLE_FIRES then Err(TooManyFires)
          else match Duration(text[slash + 1..hi]) case Err(fault) => Err(fault) case Ok(ms) => Ok((ms, fires))
  }

  function PrintedCycle(ms: nat, fires: nat): string {
    "R" + Decimal(fires) + "/" + Printed(ms)
  }

  method ParseCycle(text: string) returns (r: Result<(nat, nat)>)
    ensures r == Cycle(text)
    ensures r.Ok? ==> 1 <= r.value.0 <= MAX_TIMER_MS && 1 <= r.value.1 <= MAX_CYCLE_FIRES
  {
    var lo := Skip(text, 0);
    var hi := Back(text, lo, |text|);
    if lo == hi || text[lo] != 'R' { return Err(BadCycle); }
    var slash := Find(text, '/', lo + 1, hi);
    if slash == hi { return Err(BadCycle); }
    var fires := SignedIn(text, lo + 1, slash, MAX_U32);
    if fires.None? { return Err(BadNumber); }
    if fires.value == 0 { return Err(BadCycle); }
    if fires.value > MAX_CYCLE_FIRES { return Err(TooManyFires); }
    var ms := ParseDuration(text[slash + 1..hi]);
    if ms.Err? { return Err(ms.fault); }
    return Ok((ms.value, fires.value));
  }

  lemma PrintedMarks(ms: nat)
    ensures Marks(Printed(ms)) && Printed(ms) != ""
  {
    if ms > 0 {
      var days, hours, minutes, seconds := Components(ms);
      SpelledMarks(days, hours, minutes, seconds);
    }
  }

  lemma {:induction false} FindsSlash(text: string, count: string)
    requires AllDigits(count) && Holds(text, 1, count) && 1 + |count| < |text| && text[1 + |count|] == '/'
    ensures Find(text, '/', 1, |text|) == 1 + |count|
  {
    Ahead(text, count, '/', Find(text, '/', 1, |text|));
  }

  /** Where the parts of a printed repeating interval stand. */
  lemma {:induction false} CycleText(text: string, count: string, body: string)
    requires text == "R" + count + "/" + body && AllDigits(count) && Marks(body) && body != ""
    ensures Skip(text, 0) == 0 && Back(text, 0, |text|) == |text| && text[0] == 'R'
    ensures Find(text, '/', 1, |text|) == 1 + |count| < |text|
    ensures Holds(text, 1, count) && text[2 + |count|..|text|] == body
  {
    assert text[0] == 'R' && text[|text| - 1] == body[|body| - 1] && IsMark(body[|body| - 1]);
    assert text[1 + |count|] == '/';
    assert Holds(text, 1, count);
    FindsSlash(text, count);
  }

  lemma {:induction false} FiresRead(text: string, fires: nat)
    requires fires <= MAX_U32 && Holds(text, 1, Decimal(fires))
    ensures SignedIn(text, 1, 1 + |Decimal(fires)|, MAX_U32) == Some(fires)
  {
    var count := Decimal(fires);
    DecimalValue(fires);
    SameDigits(count, text, 1, 0, |count|);
    assert IsDigit(text[1 + 0]);
  }

  lemma {:induction false} CycleOf(text: string, body: string, fires: nat)
    requires text == "R" + Decimal(fires) + "/" + body && Marks(body) && body != "" && 1 <= fires <= MAX_CYCLE_FIRES
    ensures Cycle(text) == match Duration(body) case Err(fault) => Err(fault) case Ok(ms) => Ok((ms, fires))
  {
    CycleText(text, Decimal(fires), body);
    FiresRead(text, fires);
  }

  /** A repeating interval is read back with its count, its interval in whole seconds. */
  lemma CycleRoundTrip(ms: nat, fires: nat, text: string)
    requires ms <= MAX_U64 && 1 <= fires <= MAX_CYCLE_FIRES && text == PrintedCycle(ms, fires)
    ensures Cycle(text) == match Whole(ms) case Err(fault) => Err(fault) case Ok(whole) => Ok((whole, fires))
  {
    var body := Printed(ms);
    PrintedMarks(ms);
    CycleOf(text, body, fires);
    DurationRoundTrip(ms);
  }
}
