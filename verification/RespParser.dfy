/**
 The Redis reply reader: a growing text buffer, a queue of commands awaiting replies, and a
 loop that settles the first command with each complete reply at the front of the buffer.
 */
module RespParser {
  import opened Sums
  import opened Decimal

  /** How a command's promise is settled. */
  datatype Outcome = Resolved(value: string) | ResolvedNull | Rejected(message: string)

  datatype Settlement = Settlement(command: nat, outcome: Outcome)

  datatype Client = Client(buffer: string, queue: seq<nat>, settled: seq<Settlement>)

  // ----- reading one reply -----

  /** The place of the first "\r\n". */
  function LineEnd(s: string): (r: Option<nat>)
    ensures r.Some? ==> r.value + 2 <= |s| && s[r.value] == '\r' && s[r.value + 1] == '\n'
    ensures forall i :: 0 <= i < |s| - 1 && s[i] == '\r' && s[i + 1] == '\n' ==> r.Some? && r.value <= i
  {
    if |s| < 2 then None
    else if s[0] == '\r' && s[1] == '\n' then Some(0)
    else
      var rest := LineEnd(s[1..]);
      assert forall i :: 1 <= i < |s| - 1 ==> s[i] == s[1..][i - 1] && s[i + 1] == s[1..][i];
      if rest.None? then None else Some(rest.value + 1)
  }

  /** An index as String.prototype.slice takes it: negative ones count from the end. */
  function Clamp(i: int, length: nat): (r: nat)
    ensures r <= length
  {
    if i < 0 then (if length + i < 0 then 0 else length + i) else if i > length then length else i
  }

  function Slice(s: string, from: int, to: int): string {
    if Clamp(from, |s|) <= Clamp(to, |s|) then s[Clamp(from, |s|)..Clamp(to, |s|)] else ""
  }

  function SliceFrom(s: string, from: int): string {
    s[Clamp(from, |s|)..]
  }

  datatype Head = Incomplete | Settles(outcome: Outcome, rest: string) | Skips(rest: string)

  /** What the front of a non-empty buffer amounts to. */
  function ReadHead(b: string): (h: Head)
    requires |b| > 0
    ensures h.Skips? ==> |h.rest| < |b|
  {
    var end := LineEnd(b);
    if end.None? then Incomplete
    else if b[0] == '+' || b[0] == ':' then Settles(Resolved(b[1..end.value]), b[end.value + 2..])
    else if b[0] == '-' then Settles(Rejected(b[1..end.value]), b[end.value + 2..])
    else if b[0] == '$' then
      var len := ParseInt(b[1..end.value]);
      var dataStart := end.value + 2;
      // NaN compares false and slices as 0
      if len.None? then Settles(Resolved(""), b)
      else if len.value == -1 then Settles(ResolvedNull, b[dataStart..])
      else if |b| < dataStart + len.value + 2 then Incomplete
      else Settles(Resolved(Slice(b, dataStart, dataStart + len.value)), SliceFrom(b, dataStart + len.value + 2))
    else Skips(b[end.value + 2..])
  }

  // ----- the loop -----

  function Flush(c: Client): Client
    decreases |c.queue|, |c.buffer|
  {
    if |c.buffer| == 0 || |c.queue| == 0 then c
    else match ReadHead(c.buffer)
      case Incomplete => c
      case Settles(outcome, rest) =>
        Flush(Client(rest, c.queue[1..], c.settled + [Settlement(c.queue[0], outcome)]))
      case Skips(rest) => Flush(c.(buffer := rest))
  }

  function Feed(c: Client, chunk: string): Client {
    Flush(c.(buffer := c.buffer + chunk))
  }

  function FeedAll(c: Client, chunks: seq<string>): Client
    decreases |chunks|
  {
    if |chunks| == 0 then c else FeedAll(Feed(c, chunks[0]), chunks[1..])
  }

  function Concat(chunks: seq<string>): string {
    if |chunks| == 0 then "" else chunks[0] + Concat(chunks[1..])
  }

  function AllNull(queue: seq<nat>): seq<Settlement> {
    seq(|queue|, i requires 0 <= i < |queue| => Settlement(queue[i], ResolvedNull))
  }

  // ----- the class -----

  class MinimalRedisClient {
    var connected: bool
    var buffer: string
    var queue: seq<nat>
    var settled: seq<Settlement>

    function State(): Client
      reads this
    {
      Client(buffer, queue, settled)
    }

    constructor ()
      ensures !connected && State() == Client("", [], [])
    {
      connected, buffer, queue, settled := false, "", [], [];
    }

    /** Sends a command, or answers null at once when there is no connection. */
    method Send(command: nat)
      modifies this
      ensures connected == old(connected) && buffer == old(buffer)
      ensures State() == if connected then old(State()).(queue := old(queue) + [command])
                         else old(State()).(settled := old(settled) + [Settlement(command, ResolvedNull)])
    {
      if !connected {
        settled := settled + [Settlement(command, ResolvedNull)];
      } else {
        queue := queue + [command];
      }
    }

    method OnData(chunk: string)
      modifies this
      ensures State() == Feed(old(State()), chunk) && connected == old(connected)
    {
      buffer := buffer + chunk;
      FlushBuffer();
    }

    /** Drains waiting commands with null. */
    method OnError()
      modifies this
      ensures !connected && queue == [] && buffer == old(buffer)
      ensures settled == old(settled) + AllNull(old(queue))
    {
      connected := false;
      for i := 0 to |queue|
        invariant queue == old(queue) && buffer == old(buffer) && !connected
        invariant settled == old(settled) + AllNull(queue[..i])
      {
        settled := settled + [Settlement(queue[i], ResolvedNull)];
      }
      assert queue[..|queue|] == queue;
      queue := [];
    }

    method FlushBuffer()
      modifies this
      ensures State() == Flush(old(State())) && connected == old(connected)
    {
      hide ReadHead;
      var more := true;
      while more && |buffer| > 0 && |queue| > 0
        invariant if more then Flush(State()) == Flush(old(State())) else State() == Flush(old(State()))
        invariant connected == old(connected)
        decreases more, |queue|, |buffer|
      {
        more := FlushOne();
      }
    }

    /** One turn of the loop; false where it breaks off for want of data. */
    method FlushOne() returns (more: bool)
      requires |buffer| > 0 && |queue| > 0
      modifies this`buffer, this`queue, this`settled
      ensures var c := old(State());
              match ReadHead(c.buffer)
              case Incomplete => !more && State() == c
              case Settles(outcome, rest) =>
                more && State() == Client(rest, c.queue[1..], c.settled + [Settlement(c.queue[0], outcome)])
              case Skips(rest) => more && State() == c.(buffer := rest)
    {
      hide ParseInt, LineEnd, Slice, SliceFrom;
      var first := buffer[0];
      var end := LineEnd(buffer);
      if end.None? {
        return false;
      }
      if first == '+' || first == ':' {
        Settle(Resolved(buffer[1..end.value]), buffer[end.value + 2..]);
      } else if first == '$' {
        var len := ParseInt(buffer[1..end.value]);
        var dataStart := end.value + 2;
        if len == Some(-1) {
          Settle(ResolvedNull, buffer[dataStart..]);
        } else if len.None? {
          Settle(Resolved(""), buffer);
        } else {
          if |buffer| < dataStart + len.value + 2 {
            return false;
          }
          Settle(Resolved(Slice(buffer, dataStart, dataStart + len.value)), SliceFrom(buffer, dataStart + len.value + 2));
        }
      } else if first == '-' {
        Settle(Rejected(buffer[1..end.value]), buffer[end.value + 2..]);
      } else {
        buffer := buffer[end.value + 2..];
      }
      return true;
    }

    method Settle(outcome: Outcome, rest: string)
      requires |queue| > 0
      modifies this`buffer, this`queue, this`settled
      ensures State() == Client(rest, old(queue)[1..], old(settled) + [Settlement(old(queue)[0], outcome)])
    {
      buffer := rest;
      settled := settled + [Settlement(queue[0], outcome)];
      queue := queue[1..];
    }
  }

  // ----- chunking -----

  /** The front of b is a bulk header whose length is so far negative that slicing counts from the end of the buffer. */
  predicate Backward(b: string) {
    |b| > 0 && b[0] == '$' && LineEnd(b).Some? &&
    var len := ParseInt(b[1..LineEnd(b).value]);
    len.Some? && len.value != -1 && LineEnd(b).value + 2 + len.value < 0
  }

  /** No reply the loop reaches is backward. */
  predicate Forward(c: Client)
    decreases |c.queue|, |c.buffer|
  {
    if |c.buffer| == 0 || |c.queue| == 0 then true
    else match ReadHead(c.buffer)
      case Incomplete => true
      case Settles(outcome, rest) =>
        !Backward(c.buffer) && Forward(Client(rest, c.queue[1..], c.settled + [Settlement(c.queue[0], outcome)]))
      case Skips(rest) => Forward(c.(buffer := rest))
  }

  lemma LineEndStays(b: string, more: string)
    requires LineEnd(b).Some?
    ensures LineEnd(b + more) == LineEnd(b)
  {
    var e, e' := LineEnd(b).value, LineEnd(b + more);
    assert (b + more)[e] == '\r' && (b + more)[e + 1] == '\n';
    assert (b + more)[e'.value] == b[e'.value] && (b + more)[e'.value + 1] == b[e'.value + 1];
  }

  lemma SliceStays(b: string, more: string, from: nat, to: nat)
    requires from <= |b| && to <= |b|
    ensures Slice(b + more, from, to) == Slice(b, from, to)
    ensures SliceFrom(b + more, to) == SliceFrom(b, to) + more
  {
  }

  /** What follows a complete reply does not change how it is read, unless it is backward. */
  lemma HeadStays(b: string, more: string)
    requires |b| > 0 && !ReadHead(b).Incomplete? && !Backward(b)
    ensures ReadHead(b + more) == match ReadHead(b)
              case Settles(outcome, rest) => Settles(outcome, rest + more)
              case Skips(rest) => Skips(rest + more)
  {
    hide ParseInt, LineEnd, Slice, SliceFrom;
    LineEndStays(b, more);
    var end := LineEnd(b).value;
    assert (b + more)[end + 2..] == b[end + 2..] + more;
    if b[0] == '$' {
      BulkHeadStays(b, more, end);
    } else if end >= 1 {
      assert (b + more)[1..end] == b[1..end];
    }
  }

  lemma BulkHeadStays(b: string, more: string, end: nat)
    requires |b| > 0 && !ReadHead(b).Incomplete? && !Backward(b) && b[0] == '$'
    requires LineEnd(b) == LineEnd(b + more) == Some(end)
    ensures ReadHead(b).Settles? && ReadHead(b + more) == Settles(ReadHead(b).outcome, ReadHead(b).rest + more)
  {
    hide ParseInt, LineEnd, Slice, SliceFrom;
    assert (b + more)[1..end] == b[1..end];
    var len := ParseInt(b[1..end]);
    if len.Some? && len.value != -1 {
      SliceStays(b, more, end + 2, end + 2 + len.value);
      SliceStays(b, more, end + 2, end + 2 + len.value + 2);
    } else {
      assert (b + more)[end + 2..] == b[end + 2..] + more;
    }
  }

  lemma {:induction false} FlushThenMore(c: Client, more: string)
    requires Forward(c)
    ensures Feed(Flush(c), more) == Feed(c, more)
    decreases |c.queue|, |c.buffer|
  {
    if |c.buffer| > 0 && |c.queue| > 0 {
      match ReadHead(c.buffer)
      case Incomplete =>
      case Settles(outcome, rest) =>
        HeadStays(c.buffer, more);
        FlushThenMore(Client(rest, c.queue[1..], c.settled + [Settlement(c.queue[0], outcome)]), more);
      case Skips(rest) =>
        HeadStays(c.buffer, more);
        FlushThenMore(c.(buffer := rest), more);
    }
  }

  lemma {:induction false} FlushExtends(c: Client)
    ensures |c.settled| <= |Flush(c).settled| && Flush(c).settled[..|c.settled|] == c.settled
    decreases |c.queue|, |c.buffer|
  {
    if |c.buffer| > 0 && |c.queue| > 0 {
      match ReadHead(c.buffer)
      case Incomplete =>
      case Settles(outcome, rest) =>
        var next := Client(rest, c.queue[1..], c.settled + [Settlement(c.queue[0], outcome)]);
        FlushExtends(next);
        assert Flush(c).settled[..|c.settled|] == Flush(c).settled[..|next.settled|][..|c.settled|];
      case Skips(rest) => FlushExtends(c.(buffer := rest));
    }
  }

  /** A backward header is read differently once enough text follows it. */
  lemma BackwardMoves(b: string, more: string)
    requires Backward(b) && ReadHead(b).Settles?
    requires |more| >= |b| - ParseInt(b[1..LineEnd(b).value]).value
    ensures ReadHead(b + more).Settles? && ReadHead(b + more).outcome != ReadHead(b).outcome
  {
    hide ParseInt, LineEnd;
    LineEndStays(b, more);
    var end := LineEnd(b).value;
    assert (b + more)[1..end] == b[1..end];
    var to := end + 2 + ParseInt(b[1..end]).value;
    assert |Slice(b + more, end + 2, to)| == |b| + |more| + to - (end + 2) > |b|;
  }

  /** Where some header is backward, text can follow that gets split input settled differently. */
  lemma {:induction false} Diverges(c: Client) returns (more: string)
    requires !Forward(c)
    ensures Feed(Flush(c), more).settled != Feed(c, more).settled
    decreases |c.queue|, |c.buffer|
  {
    hide ReadHead, Backward, ParseInt, LineEnd;
    match ReadHead(c.buffer)
    case Settles(outcome, rest) =>
      var next := Client(rest, c.queue[1..], c.settled + [Settlement(c.queue[0], outcome)]);
      if Backward(c.buffer) {
        more := seq(|c.buffer| + Gap(c.buffer), i => 'x');
        BackwardMoves(c.buffer, more);
        var other := ReadHead(c.buffer + more);
        var n := |c.settled|;
        SettledAt(next, n, more);
        SettledAt(Client(other.rest, c.queue[1..], c.settled + [Settlement(c.queue[0], other.outcome)]), n, "");
        assert Feed(c, more) == Flush(Client(other.rest, c.queue[1..], c.settled + [Settlement(c.queue[0], other.outcome)]));
      } else {
        more := Diverges(next);
        HeadStays(c.buffer, more);
      }
    case Skips(rest) =>
      more := Diverges(c.(buffer := rest));
      SkipsForward(c.buffer);
      HeadStays(c.buffer, more);
  }

  lemma SkipsForward(b: string)
    requires |b| > 0 && ReadHead(b).Skips?
    ensures !Backward(b)
  {
  }

  function Gap(b: string): nat
    requires Backward(b)
  {
    -ParseInt(b[1..LineEnd(b).value]).value
  }

  /** A settlement already made is kept, through this flush and the next. */
  lemma SettledAt(c: Client, n: nat, more: string)
    requires n < |c.settled|
    ensures n < |Flush(c).settled| && Flush(c).settled[n] == c.settled[n]
    ensures n < |Feed(Flush(c), more).settled| && Feed(Flush(c), more).settled[n] == c.settled[n]
  {
    FlushExtends(c);
    FlushExtends(Flush(c).(buffer := Flush(c).buffer + more));
    assert Flush(c).settled[n] == Flush(c).settled[..|c.settled|][n];
    var d := Flush(c);
    assert Feed(d, more).settled[n] == Feed(d, more).settled[..|d.settled|][n];
  }

  /** Exactly when it is all one whether the text so far is read before or after what follows arrives. */
  lemma ChunkingIndependentIff(c: Client)
    ensures (forall more :: Feed(Flush(c), more) == Feed(c, more)) <==> Forward(c)
  {
    if Forward(c) {
      forall more ensures Feed(Flush(c), more) == Feed(c, more) {
        FlushThenMore(c, more);
      }
    } else {
      var more := Diverges(c);
      assert Feed(Flush(c), more) != Feed(c, more);
    }
  }

  /** What a bulk header does, for any length written in it, given the text that follows it.  A length that is no
      number settles the command with nothing and leaves even the header in the buffer. */
  lemma BulkHeaderIs(text: string, rest: string)
    requires OneLine(text)
    ensures var b, len := "$" + text + "\r\n" + rest, ParseInt(text);
            match len
            case None => ReadHead(b) == Settles(Resolved(""), b)
            case Some(n) =>
              if n == -1 then ReadHead(b) == Settles(ResolvedNull, rest)
              else if n >= 0 then
                ReadHead(b) == if |rest| < n + 2 then Incomplete else Settles(Resolved(rest[..n]), rest[n + 2..])
              else if n < -1 && |text| + 3 + n >= 0 then
                ReadHead(b) == Settles(Resolved(""), b[|text| + 5 + n..])
              else ReadHead(b).Settles?
  {
    hide ParseInt, LineEnd;
    var b, head := "$" + text + "\r\n" + rest, ['$'] + text + "\r\n";
    ReadsLine('$', text, rest);
    assert b == head + rest && |head| == |text| + 3;
    var len := ParseInt(text);
    if len.Some? && len.value >= 0 && |rest| >= len.value + 2 {
      SliceAfter(head, rest, len.value);
    }
  }

  lemma SliceAfter(head: string, rest: string, n: nat)
    requires |rest| >= n + 2
    ensures Slice(head + rest, |head|, |head| + n) == rest[..n]
    ensures SliceFrom(head + rest, |head| + n + 2) == rest[n + 2..]
  {
  }

  /** A header announcing minus n characters. */
  function NegativeHeader(n: nat): string {
    ['$'] + ("-" + Print(n)) + "\r\n"
  }

  lemma {:induction false} PrintIsShort(n: nat)
    ensures if n < 10 then |Print(n)| == 1 else |Print(n)| + 4 < n
  {
    if n >= 10 {
      PrintIsShort(n / 10);
    }
  }

  lemma NegativeOnOneLine(n: nat)
    ensures OneLine("-" + Print(n))
  {
    PrintReads(n);
    hide Print;
  }

  lemma HeaderWithLength(text: string)
    requires OneLine(text) && ParseInt(text).Some?
    ensures var b, len := ['$'] + text + "\r\n", ParseInt(text).value;
            && |b| > 0 && (Backward(b) <==> len != -1 && |text| + 3 + len < 0)
            && (len < -1 ==> ReadHead(b).Settles?)
  {
    hide ParseInt, LineEnd, Slice, SliceFrom;
    var b := ['$'] + text + "\r\n";
    assert b + "" == b;
    ReadsLine('$', text, "");
  }

  /** The least length that is backward is minus six. */
  lemma NegativeHeaderBackwardIff(n: nat)
    ensures |NegativeHeader(n)| > 0
    ensures Backward(NegativeHeader(n)) <==> n >= 6
    ensures n >= 6 ==> ReadHead(NegativeHeader(n)).Settles?
  {
    PrintIsShort(n);
    ParseIntOfMinus(n);
    NegativeOnOneLine(n);
    hide Print, ParseInt, Backward, ReadHead;
    HeaderWithLength("-" + Print(n));
  }

  /** Such a header is read one way as soon as it is there, and another when more has arrived. */
  lemma BackwardExample(n: nat, command: nat) returns (more: string)
    requires n >= 6
    ensures var c := Client(NegativeHeader(n), [command], []);
            !Forward(c) && Feed(Flush(c), more).settled != Feed(c, more).settled
  {
    NegativeHeaderBackwardIff(n);
    hide NegativeHeader;
    NotForward(NegativeHeader(n), command);
    hide Forward, Feed, Flush;
    more := Diverges(Client(NegativeHeader(n), [command], []));
  }

  lemma NotForward(b: string, command: nat)
    requires |b| > 0 && Backward(b) && ReadHead(b).Settles?
    ensures !Forward(Client(b, [command], []))
  {
  }

  lemma ParseIntOfMinus(n: nat)
    ensures ParseInt("-" + Print(n)).Some? && ParseInt("-" + Print(n)).value + n == 0
  {
    PrintReads(n);
    hide Print;
    var t := "-" + Print(n);
    assert TrimStart(t) == t && t[1..] == Print(n);
    DigitPrefixOfDigits(Print(n));
  }

  lemma {:induction false} ForwardSplits(c: Client, more: string)
    requires Forward(c.(buffer := c.buffer + more))
    ensures Forward(c) && Forward(Flush(c).(buffer := Flush(c).buffer + more))
    decreases |c.queue|, |c.buffer|
  {
    hide ReadHead, Backward;
    if |c.buffer| > 0 && |c.queue| > 0 && !ReadHead(c.buffer).Incomplete? {
      if Backward(c.buffer) {
        BackwardStays(c.buffer, more);
        assert false;
      }
      HeadStays(c.buffer, more);
      match ReadHead(c.buffer)
      case Settles(outcome, rest) =>
        ForwardSplits(Client(rest, c.queue[1..], c.settled + [Settlement(c.queue[0], outcome)]), more);
      case Skips(rest) => ForwardSplits(c.(buffer := rest), more);
    }
  }

  lemma BackwardStays(b: string, more: string)
    requires |b| > 0 && !ReadHead(b).Incomplete? && Backward(b)
    ensures Backward(b + more) && ReadHead(b + more).Settles?
  {
    hide ParseInt, LineEnd, Slice, SliceFrom;
    LineEndStays(b, more);
    assert (b + more)[1..LineEnd(b).value] == b[1..LineEnd(b).value];
  }

  /** Any way of cutting a reply stream into chunks settles the same commands with the same values,
      and leaves the same buffer, as the stream in one piece. */
  lemma {:induction false} AnyChunking(c: Client, chunks: seq<string>)
    requires Forward(c.(buffer := c.buffer + Concat(chunks))) && Flush(c) == c
    ensures FeedAll(c, chunks) == Feed(c, Concat(chunks))
    decreases |chunks|
  {
    hide Flush, Forward;
    if |chunks| == 0 {
      assert c.buffer + "" == c.buffer;
    } else {
      var first, rest := chunks[0], Concat(chunks[1..]);
      var c1 := c.(buffer := c.buffer + first);
      assert c.buffer + Concat(chunks) == c1.buffer + rest;
      ForwardSplits(c1, rest);
      FlushThenMore(c1, rest);
      FlushIsDone(c1);
      AnyChunking(Flush(c1), chunks[1..]);
    }
  }

  lemma {:induction false} FlushIsDone(c: Client)
    ensures Flush(Flush(c)) == Flush(c)
    decreases |c.queue|, |c.buffer|
  {
    if |c.buffer| > 0 && |c.queue| > 0 {
      match ReadHead(c.buffer)
      case Incomplete =>
      case Settles(outcome, rest) =>
        FlushIsDone(Client(rest, c.queue[1..], c.settled + [Settlement(c.queue[0], outcome)]));
      case Skips(rest) => FlushIsDone(c.(buffer := rest));
    }
  }

  // ----- well-formed replies -----

  /** Replies as a server sends them (RESP2: simple strings, errors, integers, bulk strings, null bulk strings). */
  datatype Reply = Simple(text: string) | Failure(text: string) | Integer(n: int) | Bulk(text: string) | NullBulk

  predicate OneLine(s: string) {
    forall i :: 0 <= i < |s| - 1 ==> !(s[i] == '\r' && s[i + 1] == '\n')
  }

  predicate WellFormed(r: Reply) {
    match r
    case Simple(text) => OneLine(text)
    case Failure(text) => OneLine(text)
    case _ => true
  }

  function Encode(r: Reply): string {
    match r
    case Simple(text) => "+" + text + "\r\n"
    case Failure(text) => "-" + text + "\r\n"
    case Integer(n) => ":" + PrintInt(n) + "\r\n"
    case Bulk(text) => "$" + Print(|text|) + "\r\n" + text + "\r\n"
    case NullBulk => "$-1\r\n"
  }

  function Meaning(r: Reply): Outcome {
    match r
    case Simple(text) => Resolved(text)
    case Failure(text) => Rejected(text)
    case Integer(n) => Resolved(PrintInt(n))
    case Bulk(text) => Resolved(text)
    case NullBulk => ResolvedNull
  }

  function EncodeAll(rs: seq<Reply>): string {
    if |rs| == 0 then "" else Encode(rs[0]) + EncodeAll(rs[1..])
  }

  lemma LineEndOf(line: string, rest: string)
    requires OneLine(line)
    ensures LineEnd(line + "\r\n" + rest) == Some(|line|)
  {
    var s := line + "\r\n" + rest;
    assert s[|line|] == '\r' && s[|line| + 1] == '\n';
    assert forall i {:trigger line[i]} :: 0 <= i < |line| - 1 ==> s[i] == line[i] && s[i + 1] == line[i + 1];
  }

  /** Each reply is read back as what it means, leaving what follows it. */
  lemma ReadsOneReply(r: Reply, rest: string)
    requires WellFormed(r)
    ensures |Encode(r)| > 0 && ReadHead(Encode(r) + rest) == Settles(Meaning(r), rest) && !Backward(Encode(r) + rest)
  {
    match r
    case Bulk(text) => ReadsBulk(text, rest);
    case NullBulk => ReadsNull(rest);
    case Simple(text) => ReadsText('+', text, rest);
    case Failure(text) => ReadsText('-', text, rest);
    case Integer(n) =>
      PrintedOnOneLine(n);
      ReadsText(':', PrintInt(n), rest);
  }

  lemma ReadsText(first: char, text: string, rest: string)
    requires OneLine(text) && first in "+-:"
    ensures var b := [first] + text + "\r\n" + rest;
            && ReadHead(b) == Settles(if first == '-' then Rejected(text) else Resolved(text), rest) && !Backward(b)
  {
    hide LineEnd, ParseInt;
    ReadsLine(first, text, rest);
  }

  lemma ReadsNull(rest: string)
    ensures ReadHead("$-1\r\n" + rest) == Settles(ResolvedNull, rest) && !Backward("$-1\r\n" + rest)
  {
    ParseIntOfMinus(1);
    PrintOne();
    hide LineEnd, ParseInt, Print;
    ReadsLine('$', "-1", rest);
    NullLine();
  }

  lemma NullLine()
    ensures ['$'] + "-1" + "\r\n" == "$-1\r\n"
  {
    var line := ['$'] + "-1" + "\r\n";
    assert |line| == 5 && line[0] == '$' && line[1] == '-' && line[2] == '1' && line[3] == '\r' && line[4] == '\n';
  }

  lemma PrintedOnOneLine(n: int)
    ensures OneLine(PrintInt(n))
  {
    hide Print;
    PrintReads(if n < 0 then -n else n);
  }

  lemma PrintOne()
    ensures "-" + Print(1) == "-1"
  {
  }

  lemma ReadsLine(first: char, text: string, rest: string)
    requires OneLine(text) && first in "+-:$"
    ensures var b := [first] + text + "\r\n" + rest;
            LineEnd(b) == Some(|text| + 1) && b[0] == first && b[1..|text| + 1] == text && b[|text| + 3..] == rest
  {
    hide LineEnd;
    assert OneLine([first] + text) by {
      assert forall i :: 1 <= i < |text| ==> ([first] + text)[i] == text[i - 1] && ([first] + text)[i + 1] == text[i];
    }
    LineEndOf([first] + text, rest);
  }

  lemma SliceMiddle(head: string, text: string, tail: string)
    requires |tail| >= 2
    ensures Slice(head + text + tail, |head|, |head| + |text|) == text
    ensures SliceFrom(head + text + tail, |head| + |text| + 2) == tail[2..]
  {
  }

  lemma ReadsBulk(text: string, rest: string)
    ensures ReadHead(Encode(Bulk(text)) + rest) == Settles(Resolved(text), rest) && !Backward(Encode(Bulk(text)) + rest)
  {
    hide LineEnd, ParseInt, Print, Slice, SliceFrom;
    var b, n, tail := Encode(Bulk(text)) + rest, Print(|text|), "\r\n" + rest;
    var head := ['$'] + n + "\r\n";
    assert b == head + text + tail;
    assert OneLine(n) by { PrintReads(|text|); }
    assert ParseInt(n) == Some(|text|) by { ParseIntOfPrint(|text|); }
    BulkParts(n, text, rest);
  }

  lemma BulkParts(n: string, text: string, rest: string)
    requires OneLine(n) && ParseInt(n) == Some(|text|)
    ensures var b := ['$'] + n + "\r\n" + text + ("\r\n" + rest);
            ReadHead(b) == Settles(Resolved(text), rest) && !Backward(b)
  {
    hide LineEnd, ParseInt, Slice, SliceFrom;
    var head, tail := ['$'] + n + "\r\n", "\r\n" + rest;
    var b := head + text + tail;
    ReadsLine('$', n, text + tail);
    assert b == ['$'] + n + "\r\n" + (text + tail);
    assert tail[2..] == rest;
    SliceMiddle(head, text, tail);
  }

  lemma EncodeFirst(r: Reply, rs: seq<Reply>)
    ensures EncodeAll([r] + rs) == Encode(r) + EncodeAll(rs)
  {
    assert ([r] + rs)[1..] == rs;
  }

  lemma EmptyIsDone(c: Client)
    requires c.buffer == ""
    ensures Flush(c) == c
  {
  }

  function SettleAll(queue: seq<nat>, rs: seq<Reply>): seq<Settlement>
    requires |rs| <= |queue|
  {
    seq(|rs|, i requires 0 <= i < |rs| => Settlement(queue[i], Meaning(rs[i])))
  }

  /** The k-th reply settles the k-th waiting command with what it means, and nothing is left over. */
  lemma {:induction false} RepliesInOrder(c: Client, rs: seq<Reply>)
    requires |rs| <= |c.queue| && c.buffer == EncodeAll(rs) && forall i :: 0 <= i < |rs| ==> WellFormed(rs[i])
    ensures Forward(c) && Flush(c) == Client("", c.queue[|rs|..], c.settled + SettleAll(c.queue, rs))
    decreases |rs|
  {
    hide ReadHead, Backward, Encode;
    if |rs| == 0 {
      assert c.settled + SettleAll(c.queue, rs) == c.settled;
    } else {
      ReadsOneReply(rs[0], EncodeAll(rs[1..]));
      var next := Client(EncodeAll(rs[1..]), c.queue[1..], c.settled + [Settlement(c.queue[0], Meaning(rs[0]))]);
      RepliesInOrder(next, rs[1..]);
      assert c.settled + SettleAll(c.queue, rs) == next.settled + SettleAll(next.queue, rs[1..]);
      assert next.queue[|rs| - 1..] == c.queue[|rs|..];
    }
  }

  /** The same however the stream is cut. */
  lemma RepliesInOrderAnyChunking(queue: seq<nat>, rs: seq<Reply>, chunks: seq<string>)
    requires |rs| <= |queue| && Concat(chunks) == EncodeAll(rs) && forall i :: 0 <= i < |rs| ==> WellFormed(rs[i])
    ensures FeedAll(Client("", queue, []), chunks) == Client("", queue[|rs|..], SettleAll(queue, rs))
  {
    hide Flush, Forward, EncodeAll, Concat, FeedAll;
    var c := Client("", queue, []);
    assert Flush(c) == c by { EmptyIsDone(c); }
    assert c.buffer + Concat(chunks) == EncodeAll(rs);
    RepliesInOrder(c.(buffer := EncodeAll(rs)), rs);
    AnyChunking(c, chunks);
    assert [] + SettleAll(queue, rs) == SettleAll(queue, rs);
  }

  /** A reply no command was queued for, whatever it is, is not skipped.  With commands waiting it settles the
      first of them and shifts every later reply by one.  With none waiting it stays in the buffer, and does the
      same to the commands sent later. */
  lemma UnqueuedReplyShifts(queue: seq<nat>, x: Reply, rs: seq<Reply>)
    requires |rs| < |queue| && WellFormed(x) && forall i :: 0 <= i < |rs| ==> WellFormed(rs[i])
    ensures var idle := Feed(Client("", [], []), Encode(x));
            && idle == Client(Encode(x), [], [])
            && Feed(idle.(queue := queue), EncodeAll(rs)) == Feed(Client("", queue, []), Encode(x) + EncodeAll(rs))
    ensures var after := Feed(Client("", queue, []), Encode(x) + EncodeAll(rs));
            && |after.settled| == |rs| + 1 && after.settled[0] == Settlement(queue[0], Meaning(x))
            && forall i :: 0 <= i < |rs| ==> after.settled[i + 1] == Settlement(queue[i + 1], Meaning(rs[i]))
  {
    NothingWaiting(Client("" + Encode(x), [], []));
    hide Flush, Encode, EncodeAll, SettleAll, Meaning;
    assert "" + Encode(x) == Encode(x);
    var all, stream := [x] + rs, Encode(x) + EncodeAll(rs);
    EncodeFirst(x, rs);
    assert "" + stream == stream;
    RepliesInOrder(Client(stream, queue, []), all);
    assert [] + SettleAll(queue, all) == SettleAll(queue, all);
    ShiftedByOne(queue, x, rs);
  }

  predicate StartsReply(line: string) {
    |line| > 0 && line[0] in "+:$-"
  }

  /** Exactly when a line is skipped, so that what follows is read as if it had not been there: when it starts with
      none of the four characters that begin a reply. */
  lemma LineSkippedIff(line: string, queue: seq<nat>, settled: seq<Settlement>)
    requires OneLine(line) && |line| > 0 && |queue| > 0
    ensures (forall rest :: Flush(Client(line + "\r\n" + rest, queue, settled)) == Flush(Client(rest, queue, settled)))
       <==> !StartsReply(line)
  {
    if StartsReply(line) {
      var c := Client(line + "\r\n" + "", queue, settled);
      LineEndOf(line, "");
      NotSkipped(c);
      assert Flush(Client("", queue, settled)) == Client("", queue, settled) by { EmptyIsDone(Client("", queue, settled)); }
    } else {
      forall rest ensures Flush(Client(line + "\r\n" + rest, queue, settled)) == Flush(Client(rest, queue, settled)) {
        LineEndOf(line, rest);
        SkipsLine(line, rest);
      }
    }
  }

  lemma SkipsLine(line: string, rest: string)
    requires OneLine(line) && |line| > 0 && !StartsReply(line)
    ensures ReadHead(line + "\r\n" + rest) == Skips(rest)
  {
    hide LineEnd, ParseInt;
    LineEndOf(line, rest);
  }

  /** A reply, or the beginning of one, settles a command or waits in the buffer. */
  lemma NotSkipped(c: Client)
    requires |c.queue| > 0 && StartsReply(c.buffer)
    ensures Flush(c) == c || |Flush(c).settled| > |c.settled|
  {
    hide LineEnd, ParseInt, Slice, SliceFrom;
    match ReadHead(c.buffer)
    case Incomplete =>
    case Skips(_) => assert false;
    case Settles(outcome, rest) =>
      FlushExtends(Client(rest, c.queue[1..], c.settled + [Settlement(c.queue[0], outcome)]));
  }

  lemma NothingWaiting(c: Client)
    requires c.queue == []
    ensures Flush(c) == c
  {
  }

  lemma ShiftedByOne(queue: seq<nat>, first: Reply, rs: seq<Reply>)
    requires |rs| < |queue|
    ensures var all := SettleAll(queue, [first] + rs);
            |all| == |rs| + 1 && all[0] == Settlement(queue[0], Meaning(first)) &&
            forall i :: 0 <= i < |rs| ==> all[i + 1] == Settlement(queue[i + 1], Meaning(rs[i]))
  {
  }
}
