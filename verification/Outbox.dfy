/**
 The outbox journal (internal/engine/outbox.go) and the emit cycle around it
 (internal/engine/engine.go, emitEventP): append to the journal, add to the event
 stream, publish to the channel, truncate the journal. The journal is modelled byte
 by byte, so that a crash may tear the line being written.
 */
module Outbox {
  import opened Types

  /** What tells envelopes apart. There are finitely many, since a line has a limited length. */
  type Body = n: int | 0 <= n < 0x1_0000_0000_0000_0000

  /** trade marks the envelopes that are also broadcast. */
  datatype Envelope = Envelope(trade: bool, body: Body)

  /** The line scanner gives up on a line of this many bytes. */
  const LINE_LIMIT := 65536

  /** How envelopes are written and read back. */
  datatype Codec = Codec(encode: Envelope -> string, decode: string -> Option<Envelope>)

  /** A line is free of line ends, is read back as written, and no part of it can be read. */
  ghost predicate Faithful(c: Codec, e: Envelope) {
    var s := c.encode(e);
    && 0 < |s| < LINE_LIMIT && OneLine(s)
    && c.decode(s) == Some(e)
    && forall n :: 0 <= n < |s| ==> c.decode(s[..n]).None?
  }

  /** Nor can a line that is glued to another one, or to the beginning of one. */
  ghost predicate Unglued(c: Codec, torn: Envelope, e: Envelope) {
    forall n :: 0 < n <= |c.encode(torn)| ==> c.decode(c.encode(torn)[..n] + c.encode(e)).None?
  }

  ghost predicate FaithfulCodec(c: Codec) {
    && (forall e: Envelope :: Faithful(c, e))
    && (forall torn: Envelope, e: Envelope :: Unglued(c, torn, e))
  }

  predicate OneLine(s: string) {
    forall i :: 0 <= i < |s| ==> s[i] != '\n' && s[i] != '\r'
  }

  // ---------------------------------------------------------------------
  // Lines
  // ---------------------------------------------------------------------

  /** The length of the first line. */
  function FirstLine(data: string): (n: nat)
    ensures n <= |data| && (n < |data| ==> data[n] == '\n')
    ensures forall i :: 0 <= i < n ==> data[i] != '\n'
  {
    if data == [] || data[0] == '\n' then 0 else 1 + FirstLine(data[1..])
  }

  function DropReturn(line: string): string {
    if line != [] && line[|line| - 1] == '\r' then line[..|line| - 1] else line
  }

  /** Non-empty lines, and whether the scanner got to the end. */
  datatype Scanned = Scanned(lines: seq<string>, complete: bool)

  function Scan(data: string): Scanned
    decreases |data|
  {
    if data == [] then Scanned([], true) else
      var n := FirstLine(data);
      if n >= LINE_LIMIT then Scanned([], false) else
        var line := DropReturn(data[..n]);
        var rest := Scan(if n == |data| then [] else data[n + 1..]);
        Scanned((if line == [] then [] else [line]) + rest.lines, rest.complete)
  }

  lemma {:induction false} FirstLineOf(line: string, rest: string)
    requires OneLine(line)
    ensures FirstLine(line + "\n" + rest) == |line|
    ensures FirstLine(line) == |line|
  {
    if line == [] {
      assert line + "\n" + rest == "\n" + rest;
    } else {
      assert (line + "\n" + rest)[1..] == line[1..] + "\n" + rest;
      FirstLineOf(line[1..], rest);
    }
  }

  /** A complete line is read first. */
  lemma ScanLine(line: string, rest: string)
    requires OneLine(line) && 0 < |line| < LINE_LIMIT
    ensures Scan(line + "\n" + rest) == Scanned([line] + Scan(rest).lines, Scan(rest).complete)
  {
    var data := line + "\n" + rest;
    FirstLineOf(line, rest);
    assert data[..|line|] == line && data[|line| + 1..] == rest;
    assert DropReturn(line) == line;
  }

  /** What a torn write leaves is read as one last line. */
  lemma ScanTail(tail: string)
    requires OneLine(tail) && |tail| < LINE_LIMIT
    ensures Scan(tail) == Scanned(if tail == [] then [] else [tail], true)
  {
    FirstLineOf(tail, []);
    assert tail[..|tail|] == tail;
    assert DropReturn(tail) == tail;
  }

  /** Empty lines are skipped. */
  lemma ScanEmptyLine(rest: string)
    ensures Scan("\n" + rest) == Scan(rest)
  {
    var data := "\n" + rest;
    assert data[1..] == rest && data[..0] == [];
  }

  /** A carriage return before the line end is not part of the line. */
  lemma ScanReturn(line: string, rest: string)
    requires OneLine(line) && 0 < |line| < LINE_LIMIT - 1
    ensures Scan(line + "\r\n" + rest) == Scan(line + "\n" + rest)
  {
    var data := line + "\r\n" + rest;
    ReturnFirstLine(line, rest);
    assert data[..|line| + 1] == line + "\r" && data[|line| + 2..] == rest;
    assert DropReturn(line + "\r") == line;
    ScanLine(line, rest);
  }

  lemma {:induction false} ReturnFirstLine(line: string, rest: string)
    requires OneLine(line)
    ensures FirstLine(line + "\r\n" + rest) == |line| + 1
  {
    if line == [] {
      var data := line + "\r\n" + rest;
      assert data[0] == '\r' && data[1..] == "\n" + rest;
    } else {
      assert (line + "\r\n" + rest)[1..] == line[1..] + "\r\n" + rest;
      ReturnFirstLine(line[1..], rest);
    }
  }

  /** A line of 64 KiB or more ends the scan with an error, and nothing of it or behind it is read; any shorter one is read. */
  lemma ScanLimit(line: string, rest: string)
    requires OneLine(line) && line != []
    ensures Scan(line + "\n" + rest)
         == if |line| >= 65536 then Scanned([], false) else Scanned([line] + Scan(rest).lines, Scan(rest).complete)
  {
    if |line| >= LINE_LIMIT {
      FirstLineOf(line, rest);
    } else {
      ScanLine(line, rest);
    }
  }

  /** The journal after a number of appends. */
  function Journal(c: Codec, envelopes: seq<Envelope>): string {
    if envelopes == [] then [] else c.encode(envelopes[0]) + "\n" + Journal(c, envelopes[1..])
  }

  lemma {:induction false} JournalAppend(c: Codec, envelopes: seq<Envelope>, e: Envelope)
    ensures Journal(c, envelopes + [e]) == Journal(c, envelopes) + (c.encode(e) + "\n")
  {
    if envelopes == [] {
      assert envelopes + [e] == [e] && [e][1..] == [];
    } else {
      assert (envelopes + [e])[1..] == envelopes[1..] + [e];
      JournalAppend(c, envelopes[1..], e);
    }
  }

  function Encoded(c: Codec, envelopes: seq<Envelope>): seq<string> {
    if envelopes == [] then [] else [c.encode(envelopes[0])] + Encoded(c, envelopes[1..])
  }

  lemma FaithfulTo(c: Codec, e: Envelope)
    requires FaithfulCodec(c)
    ensures Faithful(c, e)
  {
  }

  /** What was appended is read back, line by line, with a torn line at the end. */
  lemma {:induction false} JournalReadsBack(c: Codec, envelopes: seq<Envelope>, tail: string)
    requires FaithfulCodec(c) && OneLine(tail) && |tail| < LINE_LIMIT
    ensures Scan(Journal(c, envelopes) + tail)
         == Scanned(Encoded(c, envelopes) + (if tail == [] then [] else [tail]), true)
  {
    hide Scan, FaithfulCodec, Unglued;
    if envelopes == [] {
      assert Journal(c, envelopes) + tail == tail;
      ScanTail(tail);
    } else {
      var line, rest := c.encode(envelopes[0]), Journal(c, envelopes[1..]);
      assert Faithful(c, envelopes[0]) by { FaithfulTo(c, envelopes[0]); }
      assert Journal(c, envelopes) + tail == line + "\n" + (rest + tail);
      ScanLine(line, rest + tail);
      JournalReadsBack(c, envelopes[1..], tail);
      assert [line] + (Encoded(c, envelopes[1..]) + (if tail == [] then [] else [tail]))
          == Encoded(c, envelopes) + (if tail == [] then [] else [tail]);
    }
  }

  /** The envelopes of readable lines, in order; unreadable ones are skipped. */
  function Decoded(c: Codec, lines: seq<string>): seq<Envelope> {
    if lines == [] then []
    else (if c.decode(lines[0]).Some? then [c.decode(lines[0]).value] else []) + Decoded(c, lines[1..])
  }

  /** The envelopes a recovery would find. */
  function Unsent(c: Codec, journal: string): seq<Envelope> {
    Decoded(c, Scan(journal).lines)
  }

  lemma {:induction false} DecodedAppend(c: Codec, a: seq<string>, b: seq<string>)
    ensures Decoded(c, a + b) == Decoded(c, a) + Decoded(c, b)
  {
    if a == [] {
      assert a + b == b;
    } else {
      assert (a + b)[1..] == a[1..] + b;
      DecodedAppend(c, a[1..], b);
    }
  }

  lemma {:induction false} DecodedEncoded(c: Codec, envelopes: seq<Envelope>)
    requires FaithfulCodec(c)
    ensures Decoded(c, Encoded(c, envelopes)) == envelopes
  {
    if envelopes != [] {
      assert Faithful(c, envelopes[0]);
      assert Encoded(c, envelopes)[1..] == Encoded(c, envelopes[1..]);
      DecodedEncoded(c, envelopes[1..]);
    }
  }

  /** The beginning of the line of some envelope. */
  ghost predicate TornFrom(c: Codec, tail: string, e: Envelope) {
    |tail| <= |c.encode(e)| && tail == c.encode(e)[..|tail|]
  }

  /** A recovery finds every appended envelope, and the torn one exactly when its whole line was written. */
  lemma UnsentInJournal(c: Codec, envelopes: seq<Envelope>, tail: string, e: Envelope)
    requires FaithfulCodec(c) && TornFrom(c, tail, e)
    ensures Scan(Journal(c, envelopes) + tail).complete
    ensures Unsent(c, Journal(c, envelopes) + tail)
         == envelopes + (if |tail| == |c.encode(e)| then [e] else [])
  {
    assert Faithful(c, e);
    JournalReadsBack(c, envelopes, tail);
    DecodedAppend(c, Encoded(c, envelopes), if tail == [] then [] else [tail]);
    DecodedEncoded(c, envelopes);
    assert tail != [] ==> [tail][1..] == [];
    if |tail| == |c.encode(e)| {
      assert tail == c.encode(e);
    } else {
      assert c.decode(c.encode(e)[..|tail|]).None?;
      assert envelopes + [] == envelopes;
    }
  }

  /**
   A line appended behind a torn one is glued to it: the two are read as one line, which
   cannot be decoded, so a recovery finds everything before the torn line and not the
   appended envelope.
   */
  lemma AppendBehindTorn(c: Codec, envelopes: seq<Envelope>, tail: string, torn: Envelope, e: Envelope)
    requires FaithfulCodec(c) && TornFrom(c, tail, torn) && tail != [] && |tail| + |c.encode(e)| < LINE_LIMIT
    ensures var journal := Journal(c, envelopes) + tail + (c.encode(e) + "\n");
            && Scan(journal) == Scanned(Encoded(c, envelopes) + [tail + c.encode(e)], true)
            && c.decode(tail + c.encode(e)).None?
            && Unsent(c, journal) == envelopes
  {
    hide Scan, Journal, Encoded, Decoded;
    var line := tail + c.encode(e);
    assert Faithful(c, e) && Faithful(c, torn) && Unglued(c, torn, e);
    assert Journal(c, envelopes) + tail + (c.encode(e) + "\n") == Journal(c, envelopes) + (line + "\n");
    JournalThenLine(c, envelopes, line);
    DecodedAppend(c, Encoded(c, envelopes), [line]);
    DecodedEncoded(c, envelopes);
    DecodedNone(c, line);
  }

  lemma DecodedNone(c: Codec, line: string)
    requires c.decode(line).None?
    ensures Decoded(c, [line]) == []
  {
    assert [line][1..] == [];
  }

  lemma {:induction false} JournalThenLine(c: Codec, envelopes: seq<Envelope>, line: string)
    requires FaithfulCodec(c) && OneLine(line) && 0 < |line| < LINE_LIMIT
    ensures Scan(Journal(c, envelopes) + (line + "\n")) == Scanned(Encoded(c, envelopes) + [line], true)
  {
    hide Scan;
    if envelopes == [] {
      assert Journal(c, envelopes) + (line + "\n") == line + "\n" + [];
      ScanLine(line, []);
      ScanTail([]);
    } else {
      var first, rest := c.encode(envelopes[0]), Journal(c, envelopes[1..]);
      assert Faithful(c, envelopes[0]);
      assert Journal(c, envelopes) + (line + "\n") == first + "\n" + (rest + (line + "\n"));
      ScanLine(first, rest + (line + "\n"));
      JournalThenLine(c, envelopes[1..], line);
      assert [first] + (Encoded(c, envelopes[1..]) + [line]) == Encoded(c, envelopes) + [line];
    }
  }

  // ---------------------------------------------------------------------
  // There is a faithful codec
  // ---------------------------------------------------------------------

  /** w digits in base 256, written with letters beyond the line ends. */
  function Digits(n: nat, w: nat): (s: string)
    ensures |s| == w && OneLine(s)
    ensures forall i :: 0 <= i < |s| ==> 0x100 <= s[i] as int < 0x200
  {
    if w == 0 then [] else [(0x100 + n % 0x100) as char] + Digits(n / 0x100, w - 1)
  }

  function Value(s: string): int {
    if s == [] then 0 else (s[0] as int - 0x100) + 0x100 * Value(s[1..])
  }

  function Range(w: nat): nat {
    if w == 0 then 1 else 0x100 * Range(w - 1)
  }

  lemma {:induction false} ValueOfDigits(n: nat, w: nat)
    requires n < Range(w)
    ensures Value(Digits(n, w)) == n
  {
    if w > 0 {
      assert n / 0x100 < Range(w - 1);
      ValueOfDigits(n / 0x100, w - 1);
      assert Digits(n, w)[1..] == Digits(n / 0x100, w - 1);
    }
  }

  /** Lines of nine characters: a mark and eight digits. */
  const PLAIN_CODEC := Codec(
    (e: Envelope) => [if e.trade then 'T' else 'E'] + Digits(e.body, 8),
    (s: string) => PlainDecode(s))

  function PlainDecode(s: string): Option<Envelope> {
    if |s| == 9 && s[0] in {'T', 'E'} && 0 <= Value(s[1..]) < 0x1_0000_0000_0000_0000
    then Some(Envelope(s[0] == 'T', Value(s[1..]))) else None
  }

  lemma EightDigits()
    ensures Range(8) == 0x1_0000_0000_0000_0000
  {
    assert Range(2) == 0x1_0000;
    assert Range(4) == 0x1_0000_0000;
    assert Range(6) == 0x1_0000_0000_0000;
  }

  /** What is asked of a codec can be had. */
  lemma PlainCodecIsFaithful()
    ensures FaithfulCodec(PLAIN_CODEC)
  {
    hide Digits, Value, Range;
    forall e: Envelope ensures Faithful(PLAIN_CODEC, e) {
      EightDigits();
      ValueOfDigits(e.body, 8);
      var s := PLAIN_CODEC.encode(e);
      assert s[1..] == Digits(e.body, 8);
    }
    forall torn: Envelope, e: Envelope ensures Unglued(PLAIN_CODEC, torn, e) {
    }
  }

  lemma ScanUnfold(data: string, rest: string)
    requires data != [] && rest == (if FirstLine(data) == |data| then [] else data[FirstLine(data) + 1..])
    ensures var n := FirstLine(data);
            Scan(data) == if n >= LINE_LIMIT then Scanned([], false) else
              Scanned((if DropReturn(data[..n]) == [] then [] else [DropReturn(data[..n])]) + Scan(rest).lines, Scan(rest).complete)
  {
  }

  /** One line further into the file. */
  lemma ScanStep(data: string, position: nat, lines: seq<string>)
    requires position < |data|
    ensures var n := FirstLine(data[position..]);
            && position + n <= |data|
            && (n >= LINE_LIMIT ==> lines + Scan(data[position..]).lines == lines && !Scan(data[position..]).complete)
            && (n < LINE_LIMIT ==>
                  var line := DropReturn(data[position..position + n]);
                  var next := if position + n == |data| then position + n else position + n + 1;
                  && lines + Scan(data[position..]).lines
                     == (if line == [] then lines else lines + [line]) + Scan(data[next..]).lines
                  && Scan(data[position..]).complete == Scan(data[next..]).complete)
  {
    hide Scan, FirstLine, DropReturn;
    var rest := data[position..];
    var n := FirstLine(rest);
    var next := if position + n == |data| then position + n else position + n + 1;
    assert data[next..] == if n == |rest| then [] else rest[n + 1..];
    assert rest[..n] == data[position..position + n];
    ScanUnfold(rest, data[next..]);
  }

  // ---------------------------------------------------------------------
  // The code
  // ---------------------------------------------------------------------

  function Broadcast(envelopes: seq<Envelope>): seq<Envelope> {
    if envelopes == [] then []
    else (if envelopes[0].trade then [envelopes[0]] else []) + Broadcast(envelopes[1..])
  }

  lemma {:induction false} BroadcastAppend(a: seq<Envelope>, b: seq<Envelope>)
    ensures Broadcast(a + b) == Broadcast(a) + Broadcast(b)
  {
    if a == [] {
      assert a + b == b;
    } else {
      assert (a + b)[0] == a[0] && (a + b)[1..] == a[1..] + b;
      BroadcastAppend(a[1..], b);
      var first := if a[0].trade then [a[0]] else [];
      assert first + (Broadcast(a[1..]) + Broadcast(b)) == first + Broadcast(a[1..]) + Broadcast(b);
    }
  }

  /** What is broadcast is exactly the trades, each as often as it occurs and in the same order. */
  lemma {:induction false} BroadcastIsTrades(envelopes: seq<Envelope>) returns (at: seq<nat>)
    ensures |at| == |Broadcast(envelopes)|
    ensures forall i :: 0 <= i < |at| ==> at[i] < |envelopes| && envelopes[at[i]].trade && Broadcast(envelopes)[i] == envelopes[at[i]]
    ensures forall i, j :: 0 <= i < j < |at| ==> at[i] < at[j]
    ensures forall k :: 0 <= k < |envelopes| && envelopes[k].trade ==> k in at
  {
    if envelopes == [] {
      at := [];
    } else {
      var n := |envelopes| - 1;
      var init, last := envelopes[..n], envelopes[n];
      assert envelopes == init + [last];
      BroadcastAppend(init, [last]);
      BroadcastOne(last);
      at := BroadcastIsTrades(init);
      if last.trade {
        at := at + [n];
      }
    }
  }

  lemma BroadcastOne(e: Envelope)
    ensures Broadcast([e]) == if e.trade then [e] else []
  {
    assert [e][1..] == [];
  }

  /** Counted: every trade of a journal is broadcast as often as it was journaled, anything else never. */
  lemma {:induction false} BroadcastCounts(envelopes: seq<Envelope>, e: Envelope)
    ensures multiset(Broadcast(envelopes))[e] == if e.trade then multiset(envelopes)[e] else 0
  {
    if envelopes != [] {
      var n := |envelopes| - 1;
      var init, last := envelopes[..n], envelopes[n];
      assert envelopes == init + [last];
      BroadcastAppend(init, [last]);
      BroadcastOne(last);
      BroadcastCounts(init, e);
    }
  }

  /** The two Redis targets. */
  class Redis {
    var stream: seq<Envelope>
    var channel: seq<Envelope>

    constructor ()
      ensures stream == [] && channel == []
    {
      stream, channel := [], [];
    }
  }

  class OutboxFile {
    var file: string

    constructor (file: string)
      ensures this.file == file
    {
      this.file := file;
    }

    method Append(data: string)
      modifies this
      ensures file == old(file) + (data + "\n")
    {
      file := file + (data + "\n");
    }

    method Reset()
      modifies this
      ensures file == []
    {
      file := [];
    }

    method LineEnd(position: nat) returns (end: nat)
      requires position <= |file|
      ensures position <= end <= |file| && end == position + FirstLine(file[position..])
    {
      end := position;
      while end < |file| && file[end] != '\n'
        invariant position <= end <= position + FirstLine(file[position..])
      {
        assert file[position..][end - position] == file[end];
        end := end + 1;
      }
      if end < |file| {
        assert file[position..][end - position] == '\n';
      }
    }

    method ReadAll() returns (lines: seq<string>, complete: bool)
      ensures Scanned(lines, complete) == Scan(file)
    {
      hide Scan;
      lines, complete := [], true;
      var position := 0;
      assert file[0..] == file;
      while position < |file|
        invariant 0 <= position <= |file|
        invariant Scan(file) == Scanned(lines + Scan(file[position..]).lines, Scan(file[position..]).complete)
      {
        var end := LineEnd(position);
        ScanStep(file, position, lines);
        if end - position >= LINE_LIMIT {
          return lines, false;
        }
        var line := DropReturn(file[position..end]);
        if line != [] {
          lines := lines + [line];
        }
        position := if end == |file| then end else end + 1;
      }
      assert file[position..] == [];
      ScanTail([]);
    }

    /**
     One emit cycle. fault names the step at which Redis fails: 1 the stream, 2 the
     channel; the journal is truncated only when both have accepted the envelope.
     */
    method Emit(c: Codec, e: Envelope, redis: Redis, fault: nat) returns (ok: bool)
      requires redis as object != this
      modifies this, redis
      ensures ok <==> !(fault == 1 || (fault == 2 && e.trade))
      ensures file == if ok then [] else old(file) + (c.encode(e) + "\n")
      ensures redis.stream == old(redis.stream) + (if fault == 1 then [] else [e])
      ensures redis.channel == old(redis.channel) + (if ok && e.trade then [e] else [])
    {
      Append(c.encode(e));
      if fault == 1 {
        return false;
      }
      redis.stream := redis.stream + [e];
      if e.trade {
        if fault == 2 {
          return false;
        }
        redis.channel := redis.channel + [e];
      }
      Reset();
      return true;
    }

    /** Push one line to both targets; an unreadable line is skipped. Redis answers budget more times. */
    method Republish(c: Codec, line: string, redis: Redis, budget: nat) returns (ok: bool, left: nat)
      modifies redis
      ensures var calls := if c.decode(line).None? then 0 else if c.decode(line).value.trade then 2 else 1;
              (ok <==> calls <= budget) && (ok ==> left == budget - calls)
      ensures old(redis.stream) <= redis.stream
      ensures !ok ==> c.decode(line).Some? && redis.channel == old(redis.channel)
                      && redis.stream <= old(redis.stream) + [c.decode(line).value]
      ensures ok && c.decode(line).None? ==> redis.stream == old(redis.stream) && redis.channel == old(redis.channel)
      ensures ok && c.decode(line).Some? ==> redis.stream == old(redis.stream) + [c.decode(line).value]
      ensures ok && c.decode(line).Some? && c.decode(line).value.trade ==>
                redis.channel == old(redis.channel) + [c.decode(line).value]
      ensures ok && c.decode(line).Some? && !c.decode(line).value.trade ==> redis.channel == old(redis.channel)
    {
      var d := c.decode(line);
      if d.None? {
        return true, budget;
      }
      if budget == 0 {
        return false, 0;
      }
      redis.stream := redis.stream + [d.value];
      if !d.value.trade {
        return true, budget - 1;
      }
      if budget == 1 {
        return false, 0;
      }
      redis.channel := redis.channel + [d.value];
      return true, budget - 2;
    }

    /**
     Republish what the journal holds. The journal is dropped only once it was read to
     its end and every readable line is in the stream; what Redis took before it failed
     is a beginning of that.
     */
    method Recover(c: Codec, redis: Redis, budget: nat) returns (ok: bool)
      requires redis as object != this
      modifies this, redis
      ensures ok <==> Scan(old(file)).complete
                      && |Unsent(c, old(file))| + |Broadcast(Unsent(c, old(file)))| <= budget
      ensures ok ==> file == (if Scan(old(file)).lines == [] then old(file) else [])
      ensures ok ==> redis.stream == old(redis.stream) + Unsent(c, old(file))
      ensures ok ==> redis.channel == old(redis.channel) + Broadcast(Unsent(c, old(file)))
      ensures ok ==> forall e: Envelope :: multiset(redis.channel)[e] ==
                       multiset(old(redis.channel))[e] + (if e.trade then multiset(Unsent(c, old(file)))[e] else 0)
      ensures !ok ==> file == old(file) && old(redis.stream) <= redis.stream
      ensures redis.stream <= old(redis.stream) + Unsent(c, old(file))
    {
      hide Scan, Broadcast, Decoded;
      var lines, complete := ReadAll();
      if !complete {
        return false;
      }
      NothingDecoded(c);
      forall e: Envelope ensures multiset(Broadcast(Unsent(c, file)))[e] == if e.trade then multiset(Unsent(c, file))[e] else 0 {
        BroadcastCounts(Unsent(c, file), e);
      }
      if |lines| == 0 {
        return true;
      }
      var left: nat := budget;
      for i := 0 to |lines|
        invariant file == old(file)
        invariant redis.stream == old(redis.stream) + Decoded(c, lines[..i])
        invariant redis.channel == old(redis.channel) + Broadcast(Decoded(c, lines[..i]))
        invariant left + |Decoded(c, lines[..i])| + |Broadcast(Decoded(c, lines[..i]))| == budget
      {
        DecodedNext(c, lines, i);
        ok, left := Republish(c, lines[i], redis, left);
        if !ok {
          return false;
        }
      }
      assert lines[..|lines|] == lines;
      Reset();
      return true;
    }
  }

  /** One more line of a recovery, and what is before it is a beginning of the whole. */
  lemma DecodedNext(c: Codec, lines: seq<string>, i: nat)
    requires i < |lines|
    ensures var done, next, all := Decoded(c, lines[..i]), Decoded(c, lines[..i + 1]), Decoded(c, lines);
            && next == done + (if c.decode(lines[i]).Some? then [c.decode(lines[i]).value] else [])
            && Broadcast(next) == Broadcast(done)
                 + (if c.decode(lines[i]).Some? && c.decode(lines[i]).value.trade then [c.decode(lines[i]).value] else [])
            && next <= all && |Broadcast(next)| <= |Broadcast(all)|
  {
    hide Broadcast, Decoded;
    assert lines[..i + 1] == lines[..i] + [lines[i]];
    DecodedAppend(c, lines[..i], [lines[i]]);
    BroadcastAppend(Decoded(c, lines[..i]), Decoded(c, [lines[i]]));
    DecodedOne(c, lines[i]);
    assert lines == lines[..i + 1] + lines[i + 1..];
    DecodedAppend(c, lines[..i + 1], lines[i + 1..]);
    BroadcastAppend(Decoded(c, lines[..i + 1]), Decoded(c, lines[i + 1..]));
  }

  lemma DecodedOne(c: Codec, line: string)
    ensures Decoded(c, [line]) == if c.decode(line).Some? then [c.decode(line).value] else []
    ensures Broadcast(Decoded(c, [line])) ==
            if c.decode(line).Some? && c.decode(line).value.trade then [c.decode(line).value] else []
  {
    assert [line][1..] == [];
    if c.decode(line).Some? {
      BroadcastOne(c.decode(line).value);
    }
  }

  lemma NothingDecoded(c: Codec)
    ensures Decoded(c, []) == [] && Broadcast([]) == []
  {
  }
}
