/** Newline framing: one message a line, whatever pieces the stream arrives in. */
module Framing {
  import opened Common
  import opened MiniJson

  // ---------------------------------------------------------------------
  // Printed values fit on a line
  // ---------------------------------------------------------------------

  predicate OnOneLine(bytes: Bytes) {
    forall b <- bytes :: b != NEWLINE
  }

  lemma JoinsOnOneLine(a: Bytes, b: Bytes)
    requires OnOneLine(a) && OnOneLine(b)
    ensures OnOneLine(a + b)
  {
  }

  lemma {:induction false} EscapesFit(bytes: Bytes)
    ensures OnOneLine(EscapedAll(bytes))
  {
    if bytes != [] {
      EscapesFit(bytes[1..]);
      JoinsOnOneLine(Escaped(bytes[0]), EscapedAll(bytes[1..]));
    }
  }

  lemma QuotedFits(bytes: Bytes)
    ensures OnOneLine(Quoted(bytes))
  {
    EscapesFit(bytes);
    JoinsOnOneLine([QUOTE], EscapedAll(bytes));
    JoinsOnOneLine([QUOTE] + EscapedAll(bytes), [QUOTE]);
  }

  lemma NumeralFits(n: int)
    ensures OnOneLine(Numeral(n))
  {
    DecimalReadsBack(Abs(n));
    forall b | b in Decimal(Abs(n))
      ensures b != NEWLINE
    {
      assert IsDigit(b);
    }
  }

  lemma {:induction false} ItemsFit(items: seq<Json>)
    requires items != [] && forall i :: 0 <= i < |items| ==> WithoutInexact(items[i])
    ensures OnOneLine(DumpItems(items))
    decreases items, 0
  {
    DumpFits(items[0]);
    if |items| > 1 {
      ItemsFit(items[1..]);
      JoinsOnOneLine([COMMA], DumpItems(items[1..]));
      JoinsOnOneLine(Dump(items[0]), [COMMA] + DumpItems(items[1..]));
    }
  }

  lemma {:induction false} FieldFits(field: Field)
    requires WithoutInexact(field.value)
    ensures OnOneLine(DumpField(field))
    decreases field, 1
  {
    QuotedFits(field.key);
    DumpFits(field.value);
    JoinsOnOneLine(Quoted(field.key), [COLON]);
    JoinsOnOneLine(Quoted(field.key) + [COLON], Dump(field.value));
  }

  lemma {:induction false} FieldsFit(fields: seq<Field>)
    requires fields != [] && forall i :: 0 <= i < |fields| ==> WithoutInexact(fields[i].value)
    ensures OnOneLine(DumpFields(fields))
    decreases fields, 2
  {
    FieldFits(fields[0]);
    if |fields| > 1 {
      FieldsFit(fields[1..]);
      JoinsOnOneLine([COMMA], DumpFields(fields[1..]));
      JoinsOnOneLine(DumpField(fields[0]), [COMMA] + DumpFields(fields[1..]));
    }
  }

  /** No printed tree contains a newline byte, whatever bytes its strings hold. */
  lemma {:induction false} DumpFits(j: Json)
    requires WithoutInexact(j)
    ensures OnOneLine(Dump(j))
    decreases j, 3
  {
    match j {
      case Number(value) => NumeralFits(value);
      case String(bytes) => QuotedFits(bytes);
      case Array(items) =>
        if items != [] {
          ItemsFit(items);
          JoinsOnOneLine([OPEN_ARRAY], DumpItems(items));
          JoinsOnOneLine([OPEN_ARRAY] + DumpItems(items), [CLOSE_ARRAY]);
        }
      case Object(fields) =>
        if fields != [] {
          FieldsFit(fields);
          JoinsOnOneLine([OPEN_OBJECT], DumpFields(fields));
          JoinsOnOneLine([OPEN_OBJECT] + DumpFields(fields), [CLOSE_OBJECT]);
        }
      case _ =>
    }
  }

  // ---------------------------------------------------------------------
  // The reference: a reader that takes one byte at a time
  // ---------------------------------------------------------------------

  /** The unfinished line, and the lines delivered. */
  datatype Reader = Reader(buffer: Bytes, lines: seq<Bytes>)

  function Feed(r: Reader, b: Byte): Reader {
    if b != NEWLINE then r.(buffer := r.buffer + [b])
    else if r.buffer == [] then r
    else Reader([], r.lines + [r.buffer])
  }

  function FeedAll(r: Reader, bytes: Bytes): Reader {
    if bytes == [] then r else Feed(FeedAll(r, bytes[..|bytes| - 1]), bytes[|bytes| - 1])
  }

  lemma {:induction false} FeedJoins(r: Reader, a: Bytes, b: Bytes)
    ensures FeedAll(r, a + b) == FeedAll(FeedAll(r, a), b)
  {
    if b == [] {
      assert a + b == a;
    } else {
      assert (a + b)[..|a + b| - 1] == a + b[..|b| - 1];
      FeedJoins(r, a, b[..|b| - 1]);
    }
  }

  lemma {:induction false} FeedPlain(r: Reader, bytes: Bytes)
    requires OnOneLine(bytes)
    ensures FeedAll(r, bytes) == r.(buffer := r.buffer + bytes)
  {
    if bytes == [] {
      assert r.buffer + bytes == r.buffer;
    } else {
      var front := bytes[..|bytes| - 1];
      assert OnOneLine(front) by {
        forall b | b in front
          ensures b != NEWLINE
        {
          assert b in bytes;
        }
      }
      assert bytes[|bytes| - 1] in bytes;
      FeedPlain(r, bytes[..|bytes| - 1]);
      assert r.buffer + bytes[..|bytes| - 1] + [bytes[|bytes| - 1]] == r.buffer + bytes;
    }
  }

  function Deliver(lines: seq<Bytes>, line: Bytes): seq<Bytes> {
    if line == [] then lines else lines + [line]
  }

  /** A whole line, then the rest. */
  lemma FeedLine(lines: seq<Bytes>, line: Bytes, rest: Bytes)
    requires OnOneLine(line)
    ensures FeedAll(Reader([], lines), line + [NEWLINE] + rest) == FeedAll(Reader([], Deliver(lines, line)), rest)
  {
    FeedJoins(Reader([], lines), line + [NEWLINE], rest);
    FeedJoins(Reader([], lines), line, [NEWLINE]);
    FeedPlain(Reader([], lines), line);
    FeedOne(Reader([] + line, lines), NEWLINE);
    assert [] + line == line;
  }

  lemma FeedOne(r: Reader, b: Byte)
    ensures FeedAll(r, [b]) == Feed(r, b)
  {
    assert [b][..0] == [];
  }

  function Concat(parts: seq<Bytes>): Bytes {
    if parts == [] then [] else Concat(parts[..|parts| - 1]) + parts[|parts| - 1]
  }

  /** Reading in pieces. */
  function ReadChunks(r: Reader, chunks: seq<Bytes>): Reader {
    if chunks == [] then r else FeedAll(ReadChunks(r, chunks[..|chunks| - 1]), chunks[|chunks| - 1])
  }

  /** How the stream is cut makes no difference. */
  lemma {:induction false} CuttingIsIrrelevant(r: Reader, chunks: seq<Bytes>)
    ensures ReadChunks(r, chunks) == FeedAll(r, Concat(chunks))
  {
    if chunks != [] {
      var front := chunks[..|chunks| - 1];
      CuttingIsIrrelevant(r, front);
      FeedJoins(r, Concat(front), chunks[|chunks| - 1]);
    }
  }

  // ---------------------------------------------------------------------
  // The connection's two ends
  // ---------------------------------------------------------------------

  /** A line gets a newline unless it ends in one. */
  function Framed(line: Bytes): Bytes {
    if line != [] && line[|line| - 1] == NEWLINE then line else line + [NEWLINE]
  }

  /** The bytes the socket takes at each call, at most those offered; none or a
      negative number is a failure. */
  type Socket = nat -> int

  ghost predicate NeverFails(socket: Socket) {
    forall call: nat :: socket(call) > 0
  }

  /** Sending broke off inside one line: the lines before it and its first
      `taken` bytes went out, and its rest is all that is queued again. */
  predicate BreaksOff(before: seq<Bytes>, at: nat, taken: nat, wire: Bytes, after: seq<Bytes>) {
    && at < |before| && taken < |before[at]|
    && wire == Concat(before[..at]) + before[at][..taken]
    && after == [before[at][taken..]]
  }

  /** How a send ended. */
  datatype Sending = Emptied | BrokeOff | Stopped

  class IpcClient {
    var queue: seq<Bytes>
    var recvBuffer: Bytes
    /** The lines handed to the message callback, oldest first. */
    var received: seq<Bytes>

    ghost predicate Valid()
      reads this
    {
      OnOneLine(recvBuffer)
    }

    ghost function Reading(): Reader
      reads this
    {
      Reader(recvBuffer, received)
    }

    constructor ()
      ensures Valid() && queue == [] && Reading() == Reader([], [])
    {
      queue, recvBuffer, received := [], [], [];
    }

    method Enqueue(line: Bytes)
      modifies this`queue
      ensures queue == old(queue) + if line == [] then [] else [Framed(line)]
    {
      if line == [] {
        return;
      }
      var framed := line;
      if framed[|framed| - 1] != NEWLINE {
        framed := framed + [NEWLINE];
      }
      queue := queue + [framed];
    }

    /** On every connection a greeting is queued behind what is still unsent. */
    method Connect(hello: Bytes)
      modifies this`queue
      ensures queue == old(queue) + [hello + [NEWLINE]]
    {
      queue := queue + [hello + [NEWLINE]];
    }

    /** Sends everything queued; the socket may take a line in several pieces.
        When it fails, the rest of the line it was at is queued again.  Before
        each line the client may find that it was stopped. */
    method SendQueued(socket: Socket, running: nat -> bool)
      returns (wire: Bytes, outcome: Sending, ghost at: nat, ghost taken: nat)
      modifies this`queue
      ensures NeverFails(socket) ==> outcome != BrokeOff
      ensures (forall i: nat :: running(i)) ==> outcome != Stopped
      ensures match outcome
              case Emptied => queue == [] && wire == Concat(old(queue))
              case BrokeOff => BreaksOff(old(queue), at, taken, wire, queue)
              case Stopped => at < |old(queue)| && queue == [] && wire == Concat(old(queue)[..at])
    {
      var pending, calls: nat, lines: nat := queue, 0, 0;
      queue, wire, at, taken := [], [], 0, 0;
      while pending != [] && running(lines)
        invariant at <= |old(queue)| && pending == old(queue)[at..]
        invariant queue == [] && wire == Concat(old(queue)[..at])
        decreases |pending|
      {
        var line := pending[0];
        var sent := 0;
        while sent < |line|
          invariant 0 <= sent <= |line| && queue == []
          invariant wire == Concat(old(queue)[..at]) + line[..sent]
        {
          var result := SendBytes(socket, calls, |line| - sent);
          calls := calls + 1;
          if result <= 0 {
            queue := [line[sent..]] + queue;
            return wire, BrokeOff, at, sent;
          }
          wire := wire + line[sent..sent + result];
          assert line[..sent + result] == line[..sent] + line[sent..sent + result];
          sent := sent + result;
        }
        assert line[..sent] == line;
        assert old(queue)[..at + 1][..at] == old(queue)[..at];
        pending := pending[1..];
        at, lines := at + 1, lines + 1;
      }
      assert pending == [] ==> old(queue)[..at] == old(queue);
      outcome := if pending == [] then Emptied else Stopped;
    }

    method SendBytes(socket: Socket, call: nat, size: nat) returns (result: int)
      ensures result == if socket(call) < size then socket(call) else size
    {
      result := if socket(call) < size then socket(call) else size;
    }

    method FindNewline() returns (pos: Option<nat>)
      ensures pos.None? ==> OnOneLine(recvBuffer)
      ensures pos.Some? ==> pos.value < |recvBuffer| && recvBuffer[pos.value] == NEWLINE
      ensures pos.Some? ==> OnOneLine(recvBuffer[..pos.value])
    {
      for i := 0 to |recvBuffer|
        invariant forall k :: 0 <= k < i ==> recvBuffer[k] != NEWLINE
      {
        if recvBuffer[i] == NEWLINE {
          return Some(i);
        }
      }
      pos := None;
    }

    /** What the reference reader makes of the buffer. */
    ghost function Digested(): Reader
      reads this
    {
      FeedAll(Reader([], received), recvBuffer)
    }

    /** Delivers the buffer's first complete line, if there is one. */
    method TakeLine() returns (found: bool)
      modifies this`recvBuffer, this`received
      ensures Digested() == old(Digested())
      ensures if found then |recvBuffer| < |old(recvBuffer)| else OnOneLine(recvBuffer)
    {
      var pos := FindNewline();
      if pos.None? {
        return false;
      }
      var line := recvBuffer[..pos.value];
      ghost var rest := recvBuffer[pos.value + 1..];
      assert recvBuffer == line + [NEWLINE] + rest;
      FeedLine(received, line, rest);
      recvBuffer := recvBuffer[pos.value + 1..];
      if line != [] {
        received := received + [line];
      }
      return true;
    }

    /** One chunk off the socket: complete lines are delivered, the rest is kept. */
    method Receive(chunk: Bytes)
      requires Valid()
      modifies this`recvBuffer, this`received
      ensures Valid() && Reading() == FeedAll(old(Reading()), chunk)
    {
      UnfinishedLine(received, recvBuffer);
      FeedJoins(Reader([], received), recvBuffer, chunk);
      recvBuffer := recvBuffer + chunk;
      var found := true;
      while found
        invariant Digested() == FeedAll(old(Reading()), chunk)
        invariant !found ==> Valid()
        decreases found, |recvBuffer|
      {
        found := TakeLine();
      }
      UnfinishedLine(received, recvBuffer);
    }
  }

  lemma UnfinishedLine(lines: seq<Bytes>, bytes: Bytes)
    requires OnOneLine(bytes)
    ensures FeedAll(Reader([], lines), bytes) == Reader(bytes, lines)
  {
    FeedPlain(Reader([], lines), bytes);
    assert [] + bytes == bytes;
  }

  // ---------------------------------------------------------------------
  // End to end
  // ---------------------------------------------------------------------

  function Stream(messages: seq<Json>): Bytes {
    if messages == [] then []
    else Stream(messages[..|messages| - 1]) + (Dump(messages[|messages| - 1]) + [NEWLINE])
  }

  function Texts(messages: seq<Json>): seq<Bytes> {
    if messages == [] then [] else Texts(messages[..|messages| - 1]) + [Dump(messages[|messages| - 1])]
  }

  lemma {:induction false} StreamDelivers(messages: seq<Json>)
    requires forall m <- messages :: Printable(m)
    ensures FeedAll(Reader([], []), Stream(messages)) == Reader([], Texts(messages))
  {
    if messages != [] {
      var front, last := messages[..|messages| - 1], messages[|messages| - 1];
      assert last in messages && forall m <- front :: m in messages;
      StreamDelivers(front);
      FeedJoins(Reader([], []), Stream(front), Dump(last) + [NEWLINE]);
      PrintableHasNoText(last);
      DumpFits(last);
      DumpStarts(last);
      FeedLine(Texts(front), Dump(last), []);
      assert Dump(last) + [NEWLINE] + [] == Dump(last) + [NEWLINE];
    }
  }

  lemma {:induction false} TextsParse(messages: seq<Json>, i: nat)
    requires i < |messages| && forall m <- messages :: Printable(m)
    ensures |Texts(messages)| == |messages| && Parse(Texts(messages)[i]) == Some(messages[i])
  {
    var front, last := messages[..|messages| - 1], messages[|messages| - 1];
    assert last in messages && forall m <- front :: m in messages;
    if i < |front| {
      TextsParse(front, i);
    } else {
      ParseUndoesDump(last);
      TextsCount(front);
    }
  }

  lemma {:induction false} TextsCount(messages: seq<Json>)
    ensures |Texts(messages)| == |messages|
  {
    if messages != [] {
      TextsCount(messages[..|messages| - 1]);
    }
  }

  /** Any messages, any cutting of their stream: the receiver delivers exactly
      those messages, in order, and keeps nothing back. */
  lemma MessagesArrive(messages: seq<Json>, chunks: seq<Bytes>)
    requires forall m <- messages :: Printable(m)
    requires Concat(chunks) == Stream(messages)
    ensures var r := ReadChunks(Reader([], []), chunks);
            && r.buffer == [] && |r.lines| == |messages|
            && forall i :: 0 <= i < |messages| ==> Parse(r.lines[i]) == Some(messages[i])
  {
    CuttingIsIrrelevant(Reader([], []), chunks);
    StreamDelivers(messages);
    TextsCount(messages);
    forall i | 0 <= i < |messages|
      ensures Parse(Texts(messages)[i]) == Some(messages[i])
    {
      TextsParse(messages, i);
    }
  }

  /** What the sender queues for its messages is their stream. */
  lemma {:induction false} QueueIsStream(messages: seq<Json>)
    requires forall m <- messages :: Printable(m)
    ensures Concat(FramedAll(Texts(messages))) == Stream(messages)
  {
    if messages != [] {
      var front, last := messages[..|messages| - 1], messages[|messages| - 1];
      assert last in messages && forall m <- front :: m in messages;
      QueueIsStream(front);
      PrintableHasNoText(last);
      DumpFits(last);
      DumpStarts(last);
      assert Framed(Dump(last)) == Dump(last) + [NEWLINE];
      var texts := Texts(messages);
      assert texts[..|texts| - 1] == Texts(front);
      var framed := FramedAll(texts);
      assert framed[..|framed| - 1] == FramedAll(Texts(front));
    }
  }

  /** A send that breaks off queues again exactly what it has not sent whole if
      and only if it was at the last line and none of that had gone out: the
      lines behind the one it was at are lost, and a torn line stays torn. */
  lemma BreakingOffKeepsExactly(before: seq<Bytes>, at: nat, taken: nat, wire: Bytes, after: seq<Bytes>)
    requires BreaksOff(before, at, taken, wire, after)
    ensures after == before[at..] <==> at == |before| - 1 && taken == 0
  {
    assert before[at..][0] == before[at];
    BreakingOffTearsExactly(before, at, taken, wire, after);
  }

  /** What is queued again is a whole line exactly when none of it went out. */
  lemma BreakingOffTearsExactly(before: seq<Bytes>, at: nat, taken: nat, wire: Bytes, after: seq<Bytes>)
    requires BreaksOff(before, at, taken, wire, after)
    ensures after == [before[at]] <==> taken == 0
  {
    assert |after[0]| == |before[at]| - taken;
    if taken == 0 {
      assert before[at][0..] == before[at];
    }
  }

  lemma {:induction false} FramedTexts(messages: seq<Json>, k: nat)
    requires k <= |messages|
    ensures |FramedAll(Texts(messages))| == |messages|
    ensures FramedAll(Texts(messages))[..k] == FramedAll(Texts(messages[..k]))
    ensures k < |messages| ==> FramedAll(Texts(messages))[k] == Framed(Dump(messages[k]))
  {
    if messages == [] {
      assert messages[..k] == messages;
    } else {
      var front := messages[..|messages| - 1];
      FramedTexts(front, if k < |messages| then k else k - 1);
      var texts := Texts(messages);
      assert texts[..|texts| - 1] == Texts(front);
      if k < |messages| {
        assert front[..k] == messages[..k];
      } else {
        assert messages[..k] == messages;
      }
    }
  }

  /** However the sending breaks off, the receiver delivers the messages before
      the torn one and keeps its first bytes back. */
  lemma BrokenStreamDelivers(messages: seq<Json>, at: nat, taken: nat)
    requires forall m <- messages :: Printable(m)
    requires at < |messages| && taken <= |Dump(messages[at])|
    ensures FeedAll(Reader([], []), Stream(messages[..at]) + Framed(Dump(messages[at]))[..taken]) ==
            Reader(Dump(messages[at])[..taken], Texts(messages[..at]))
  {
    var front, text := messages[..at], Dump(messages[at]);
    assert forall m <- front :: m in messages;
    assert messages[at] in messages;
    PrintableHasNoText(messages[at]);
    DumpFits(messages[at]);
    StreamDelivers(front);
    FeedJoins(Reader([], []), Stream(front), Framed(text)[..taken]);
    assert Framed(text)[..taken] == text[..taken];
    assert forall b <- text[..taken] :: b in text;
    UnfinishedLine(Texts(front), text[..taken]);
  }

  function FramedAll(lines: seq<Bytes>): seq<Bytes> {
    if lines == [] then [] else FramedAll(lines[..|lines| - 1]) + [Framed(lines[|lines| - 1])]
  }
}
