/** The producer: the rows of the sample file are sent in groups with a pause after each group, and the whole sequence
    is repeated. */
module Producer {
  import opened Options
  import opened Timestamps
  import opened Pacing

  // ---------- machine integers ----------

  const TWO_TO_63: int := 0x8000_0000_0000_0000
  const TWO_TO_64: int := 0x1_0000_0000_0000_0000

  predicate IsInt64(x: int) { -TWO_TO_63 <= x < TWO_TO_63 }

  /** A 64-bit result, with wrap-around. */
  function Wrap(x: int): int { (x + TWO_TO_63) % TWO_TO_64 - TWO_TO_63 }

  const MAX_INT32 := 0x7FFF_FFFF

  predicate AllDigits(s: string) { forall i :: 0 <= i < |s| ==> IsDigit(s[i]) }

  function Value(s: string): nat
    requires AllDigits(s)
  {
    if |s| == 0 then 0 else Value(s[..|s| - 1]) * 10 + ValueOf(s[|s| - 1])
  }

  /** `strconv.Atoi`: an optional sign and at least one digit, within 64 bits. */
  function Atoi(s: string): Option<int> {
    if |s| == 0 then None
    else if s[0] == '-' then Signed(-1, s[1..])
    else if s[0] == '+' then Signed(1, s[1..])
    else Signed(1, s)
  }

  function Signed(sign: int, digits: string): Option<int> {
    if |digits| > 0 && AllDigits(digits) && IsInt64(sign * Value(digits)) then Some(sign * Value(digits)) else None
  }

  function Decimal(n: nat): (s: string)
    ensures |s| > 0 && AllDigits(s)
  {
    if n < 10 then [Digit(n)] else Decimal(n / 10) + [Digit(n % 10)]
  }

  lemma {:induction false} ValueOfDecimal(n: nat)
    ensures Value(Decimal(n)) == n
  {
    if n >= 10 {
      ValueOfDecimal(n / 10);
      assert Decimal(n)[..|Decimal(n)| - 1] == Decimal(n / 10);
    } else {
      assert Decimal(n)[..0] == [];
    }
  }

  function Setting(text: string, default: int): int { if Atoi(text).Some? then Atoi(text).value else default }

  /** The decimal form of a number is read back if it fits; otherwise the default holds. */
  lemma {:induction false} AtoiReadsDecimal(n: nat, s: string, default: int)
    requires s == Decimal(n)
    ensures Setting(s, default) == if n < 0x8000_0000_0000_0000 then n else default
  {
    ValueOfDecimal(n);
    assert IsDigit(s[0]);
  }

  lemma {:induction false} AtoiReadsNegative(n: nat, s: string, default: int)
    requires |s| > 0 && s[0] == '-' && s[1..] == Decimal(n)
    ensures Setting(s, default) == if n <= 0x8000_0000_0000_0000 then -(n as int) else default
  {
    ValueOfDecimal(n);
  }

  lemma {:induction false} ValueSplits(c: char, s: string)
    requires IsDigit(c) && AllDigits(s)
    ensures c == '0' ==> Value([c] + s) == Value(s)
    ensures AllDigits([c] + s)
  {
    var t := [c] + s;
    if |s| > 0 {
      var init := s[..|s| - 1];
      assert t[..|t| - 1] == [c] + init;
      ValueSplits(c, init);
    } else {
      assert t[..0] == [];
    }
  }

  /** A plus sign and leading zeros change nothing, and anything but digits behind an optional sign means the
      default. */
  lemma OtherSettings(s: string, default: int)
    ensures |s| > 0 && AllDigits(s) ==> Setting("0" + s, default) == Setting(s, default) == Setting("+" + s, default)
    ensures |s| == 0 ==> Setting(s, default) == Setting("-" + s, default) == Setting("+" + s, default) == default
    ensures (exists i :: 0 <= i < |s| && !IsDigit(s[i]) && (i > 0 || (s[i] != '-' && s[i] != '+'))) ==>
              Setting(s, default) == default
  {
    assert ("-" + s)[1..] == s && ("+" + s)[1..] == s;
    if |s| > 0 && AllDigits(s) { ValueSplits('0', s); }
    if i :| 0 <= i < |s| && !IsDigit(s[i]) && (i > 0 || (s[i] != '-' && s[i] != '+')) {
      assert i > 0 ==> s[1..][i - 1] == s[i];
    }
  }

  // ---------- what one sequence should do ----------

  /** How timestamps are read and written. */
  datatype Layout = Layout(parse: string -> Option<Civil>, format: Civil -> string)

  /** The layout of the sample file, read in one form and written in the other. */
  const BAI := Layout(Parse, (t: Civil) => if IsCivil(t) then Format(t) else "")

  datatype Row = Row(dateTime: string, columns: seq<string>)

  /** What is handed to Kafka for a row. Whether it arrives is only logged. */
  datatype Event = Event(time: Civil, data: Row)

  predicate IsReadable(layout: Layout, r: Row) { layout.parse(r.dateTime).Some? }

  predicate AllReadable(layout: Layout, rows: seq<Row>) { forall i :: 0 <= i < |rows| ==> IsReadable(layout, rows[i]) }

  function EventOf(layout: Layout, r: Row): Event
    requires IsReadable(layout, r)
  {
    var t := layout.parse(r.dateTime).value;
    Event(t, r.(dateTime := layout.format(t)))
  }

  /** The events of the rows, one each, in order. */
  function Events(layout: Layout, rows: seq<Row>): (events: seq<Event>)
    requires AllReadable(layout, rows)
    ensures |events| == |rows| && forall k :: 0 <= k < |rows| ==> events[k] == EventOf(layout, rows[k])
  {
    seq(|rows|, k requires 0 <= k < |rows| => EventOf(layout, rows[k]))
  }

  /** How many rows come before the first one that cannot be read. */
  function Readable(layout: Layout, rows: seq<Row>): (n: nat)
    ensures n <= |rows| && AllReadable(layout, rows[..n])
    ensures n < |rows| ==> !IsReadable(layout, rows[n])
  {
    if |rows| == 0 then 0 else
    var n := Readable(layout, rows[..|rows| - 1]);
    if n == |rows| - 1 && IsReadable(layout, rows[n]) then n + 1 else n
  }

  /** `time.Duration(seconds) * time.Second`. */
  function Nanoseconds(seconds: int): int { Wrap(seconds * 1_000_000_000) }

  /** The real group size: anything below one acts as one. */
  function Group(messagesPerGroup: int): nat { if messagesPerGroup < 1 then 1 else messagesPerGroup }

  // ---------- the repetition loop ----------

  /** How often the loop `i := 0; i != r; i++` runs on 64-bit integers. */
  function Iterations(r: int): nat
    requires IsInt64(r)
  {
    if r >= 0 then r else TWO_TO_64 + r
  }

  /** The wrapping counter meets r for the first time after exactly that many rounds; a counter without bound never
      meets a negative r. */
  lemma LoopExit(r: int, k: nat)
    requires IsInt64(r)
    ensures Wrap(Iterations(r)) == r
    ensures k < Iterations(r) ==> Wrap(k) != r
    ensures r < 0 ==> k != r
  {
  }

  /** "-1" is not for ever: it is one round less than there are 64-bit integers. */
  lemma MinusOne()
    ensures Setting("-1", 1) == -1 && Iterations(-1) == TWO_TO_64 - 1
  {
  }

  lemma WrapNext(k: nat)
    ensures Wrap(Wrap(k) + 1) == Wrap(k + 1)
  {
  }

  /** A pause lasts as long as asked for as long as the product fits into 64 bits, and only then. */
  lemma PauseIsExact(seconds: int)
    requires IsInt64(seconds)
    ensures Nanoseconds(seconds) == seconds * 1_000_000_000 <==> -9_223_372_036 <= seconds <= 9_223_372_036
  {
  }

  // ---------- the program ----------

  class Client {
    var trace: seq<Effect<Event>>

    constructor ()
      ensures trace == []
    {
      trace := [];
    }

    method Send(event: Event)
      modifies this
      ensures trace == old(trace) + [Attempt(event)]
    {
      trace := trace + [Attempt(event)];
    }

    method Sleep(nanoseconds: int)
      modifies this
      ensures trace == old(trace) + [Pause(nanoseconds)]
    {
      trace := trace + [Pause(nanoseconds)];
    }
  }

  function SequenceTrace(layout: Layout, file: seq<Row>, messagesPerGroup: int,
      secondsToPause: int): seq<Effect<Event>> {
    Paced(Events(layout, file[..Readable(layout, file)]), Group(messagesPerGroup), Nanoseconds(secondsToPause))
  }

  /** A sequence attempts exactly the rows before the first unreadable one, and pauses once per full group of them. */
  lemma {:induction false} SequenceCounts(layout: Layout, file: seq<Row>, m: int, s: int, g: nat)
    requires g == if m < 1 then 1 else m
    ensures var t, n := SequenceTrace(layout, file, m, s), Readable(layout, file);
            Attempts(t) == n && |t| == n + n / g
  {
    var events := Events(layout, file[..Readable(layout, file)]);
    PacedAttempts(events, g, Nanoseconds(s));
    PacedLength(events, g, Nanoseconds(s));
  }

  /** The attempts are those of the rows, in order, each behind the pauses of the full groups before it. An event has
      the time that its row says, and carries the row with nothing changed but the way the time is written. */
  lemma {:induction false} SequenceOrder(layout: Layout, file: seq<Row>, m: int, s: int, g: nat, k: nat, at: nat)
    requires g == if m < 1 then 1 else m
    requires k < Readable(layout, file) && at == k + k / g
    ensures var t, time := SequenceTrace(layout, file, m, s), layout.parse(file[k].dateTime);
            && time.Some?
            && at < |t| && t[at] == Attempt(Event(time.value, file[k].(dateTime := layout.format(time.value))))
  {
    var rows := file[..Readable(layout, file)];
    ItemAt(Events(layout, rows), g, Nanoseconds(s), k);
    assert rows[k] == file[k] && IsReadable(layout, rows[k]);
  }

  /** Behind every full group there is a pause of as many seconds as were asked for; if so many nanoseconds do not fit
      into 64 bits, of their low 64 bits. */
  lemma {:induction false} SequencePauses(layout: Layout, file: seq<Row>, m: int, s: int, g: nat, j: nat, at: nat)
    requires g == if m < 1 then 1 else m
    requires 1 <= j <= Readable(layout, file) / g && at == j * g + j - 1
    ensures var t := SequenceTrace(layout, file, m, s);
            && at < |t| && t[at].Pause?
            && (-9_223_372_036 <= s <= 9_223_372_036 ==> t[at] == Pause(s * 1_000_000_000))
            && IsInt64(t[at].nanoseconds) && (t[at].nanoseconds - s * 1_000_000_000) % 0x1_0000_0000_0000_0000 == 0
  {
    PauseAt(Events(layout, file[..Readable(layout, file)]), g, Nanoseconds(s), j, at);
    WrapIsCongruent(s * 1_000_000_000);
  }

  lemma WrapIsCongruent(x: int)
    ensures IsInt64(Wrap(x)) && (Wrap(x) - x) % 0x1_0000_0000_0000_0000 == 0
    ensures IsInt64(x) ==> Wrap(x) == x
  {
    var q := (x + TWO_TO_63) / TWO_TO_64;
    assert Wrap(x) - x == -q * TWO_TO_64;
  }

  /** All the repetitions: each has the attempts and the pauses of one sequence at its own place. */
  lemma {:induction false} RepetitionsPause(layout: Layout, file: seq<Row>, m: int, s: int, g: nat, times: nat,
      q: nat, j: nat, x: nat, at: nat)
    requires g == if m < 1 then 1 else m
    requires 1 <= j <= Readable(layout, file) / g && x == j * g + j - 1 && -9_223_372_036 <= s <= 9_223_372_036
    requires q < times && at == q * |SequenceTrace(layout, file, m, s)| + x
    ensures var all := Repeat(SequenceTrace(layout, file, m, s), times);
            at < |all| && all[at] == Pause(s * 1_000_000_000)
  {
    SequencePauses(layout, file, m, s, g, j, x);
    RepeatAt(SequenceTrace(layout, file, m, s), times, q, x, at);
  }

  /** The timestamps inside the messages sort as strings like the times of the events, and each reads back as its
      event's time; a row that has been rewritten could not be sent again. */
  lemma SentTimestampsSort(r1: Row, r2: Row)
    requires IsReadable(BAI, r1) && IsReadable(BAI, r2)
    ensures var e1, e2 := EventOf(BAI, r1), EventOf(BAI, r2);
            && (LexLess(e1.data.dateTime, e2.data.dateTime) <==> Instant(e1.time) < Instant(e2.time))
            && Some(e1.time) == Parse(r1.dateTime) && ReadRfc3339(e1.data.dateTime) == Some((e1.time, 0))
            && !IsReadable(BAI, e1.data)
  {
    RewritePreservesOrder(r1.dateTime, r2.dateTime);
    RewrittenIsUnreadable(Parse(r1.dateTime).value);
  }

  /** `sendSequence`. The rows are read afresh from the file. At the first timestamp that cannot be read the process
      dies, after exactly the rows before it. */
  method SendSequence(c: Client, layout: Layout, file: seq<Row>, messagesPerGroup: int, secondsToPause: int)
      returns (alive: bool)
    modifies c
    ensures alive <==> AllReadable(layout, file)
    ensures c.trace == old(c.trace) + SequenceTrace(layout, file, messagesPerGroup, secondsToPause)
  {
    var samples := new Row[|file|](i requires 0 <= i < |file| => file[i]);
    var numSent := 0;
    ghost var g := Group(messagesPerGroup);
    ghost var before, nanoseconds := c.trace, Nanoseconds(secondsToPause);
    for i := 0 to samples.Length
      invariant samples[i..] == file[i..]
      invariant AllReadable(layout, file[..i]) && numSent == i % g
      invariant c.trace == before + Paced(Events(layout, file[..i]), g, nanoseconds)
    {
      assert samples[i] == samples[i..][0] == file[i];
      var t := layout.parse(samples[i].dateTime);
      if t.None? {
        ReadableIs(layout, file, i);
        return false;
      }
      samples[i] := samples[i].(dateTime := layout.format(t.value));
      assert samples[i + 1..] == file[i + 1..];
      c.Send(Event(t.value, samples[i]));
      OneMore(layout, file, i, g, nanoseconds, before);
      FullGroup(i, numSent, messagesPerGroup);
      numSent := numSent + 1;
      if numSent >= messagesPerGroup {
        c.Sleep(Wrap(secondsToPause * 1_000_000_000));
        numSent := 0;
      }
    }
    assert file[..|file|] == file;
    ReadableIs(layout, file, |file|);
    alive := true;
  }

  lemma {:induction false} ReadableIs(layout: Layout, rows: seq<Row>, n: nat)
    requires n <= |rows| && AllReadable(layout, rows[..n]) && (n < |rows| ==> !IsReadable(layout, rows[n]))
    ensures Readable(layout, rows) == n
    ensures AllReadable(layout, rows) <==> n == |rows|
  {
  }

  lemma {:induction false} OneMore(layout: Layout, file: seq<Row>, i: nat, g: nat, nanoseconds: int,
      before: seq<Effect<Event>>)
    requires g > 0 && i < |file| && AllReadable(layout, file[..i]) && IsReadable(layout, file[i])
    ensures AllReadable(layout, file[..i + 1])
    ensures var sent := before + Paced(Events(layout, file[..i]), g, nanoseconds) + [Attempt(EventOf(layout, file[i]))];
            before + Paced(Events(layout, file[..i + 1]), g, nanoseconds)
            == if (i + 1) % g == 0 then sent + [Pause(nanoseconds)] else sent
  {
    assert file[..i + 1][..i] == file[..i];
    var events := Events(layout, file[..i + 1]);
    assert events[..|events| - 1] == Events(layout, file[..i]);
  }

  /** The counter says when a group is full. */
  lemma FullGroup(i: nat, numSent: nat, messagesPerGroup: int)
    requires numSent == i % Group(messagesPerGroup)
    ensures numSent + 1 >= messagesPerGroup <==> (i + 1) % Group(messagesPerGroup) == 0
    ensures (i + 1) % Group(messagesPerGroup) == if numSent + 1 >= messagesPerGroup then 0 else numSent + 1
  {
    Next(i, Group(messagesPerGroup));
  }

  /** `Start`, from the settings on. If no row stops it, it sends the sequence as often as the wrapping counter allows;
      otherwise it dies in the first sequence. */
  method Start(c: Client, layout: Layout, file: seq<Row>, messagesPerGroup: string, secondsToPause: string,
               sequenceRepititions: string)
      returns (alive: bool)
    modifies c
    ensures var m, s := Setting(messagesPerGroup, 2_147_483_647), Setting(secondsToPause, 0);
            var r := Setting(sequenceRepititions, 1);
            && IsInt64(r)
            && (alive <==> r == 0 || AllReadable(layout, file))
            && c.trace == old(c.trace) + if alive then Repeat(SequenceTrace(layout, file, m, s), Iterations(r))
               else SequenceTrace(layout, file, m, s)
  {
    var m, s, r := MAX_INT32, 0, 1;
    if Atoi(messagesPerGroup).Some? {
      m := Atoi(messagesPerGroup).value;
    }
    if Atoi(secondsToPause).Some? {
      s := Atoi(secondsToPause).value;
    }
    if Atoi(sequenceRepititions).Some? {
      r := Atoi(sequenceRepititions).value;
    }
    var i := 0;
    ghost var k := 0;
    while i != r
      invariant k <= Iterations(r) && i == Wrap(k) && (k > 0 ==> AllReadable(layout, file))
      invariant c.trace == old(c.trace) + Repeat(SequenceTrace(layout, file, m, s), k)
      decreases Iterations(r) - k
    {
      LoopExit(r, k);
      alive := SendSequence(c, layout, file, m, s);
      if !alive {
        return false;
      }
      WrapNext(k);
      i := Wrap(i + 1);
      k := k + 1;
    }
    LoopExit(r, k);
    alive := true;
  }
}
