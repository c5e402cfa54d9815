/** The connection from end to end: messages printed, framed, sent in pieces,
    reassembled and parsed. */
module Exchange {
  import opened Common
  import opened MiniJson
  import opened JsonCodec
  import opened Framing

  lemma FramedAppends(messages: seq<Json>, i: nat)
    requires i < |messages|
    ensures FramedAll(Texts(messages[..i + 1])) == FramedAll(Texts(messages[..i])) + [Framed(Dump(messages[i]))]
  {
    var front, all := messages[..i], messages[..i + 1];
    assert all[..|all| - 1] == front && all[|all| - 1] == messages[i];
    var texts := Texts(all);
    assert texts == Texts(front) + [Dump(messages[i])] && texts[..|texts| - 1] == Texts(front);
  }

  /** Prints every message and hands it to the sender's queue. */
  method QueueMessages(sender: IpcClient, messages: seq<Json>)
    requires sender.queue == [] && forall m <- messages :: Printable(m)
    modifies sender
    ensures sender.queue == FramedAll(Texts(messages))
  {
    for i := 0 to |messages|
      invariant sender.queue == FramedAll(Texts(messages[..i]))
    {
      var text := DumpText(messages[i]);
      DumpStarts(messages[i]);
      FramedAppends(messages, i);
      sender.Enqueue(text);
    }
    assert messages[..|messages|] == messages;
  }

  /** The stream arrives in pieces of any size. */
  method ReceiveWire(receiver: IpcClient, stream: Bytes)
    requires receiver.Valid() && receiver.Reading() == Reader([], [])
    modifies receiver
    ensures receiver.Valid() && receiver.Reading() == FeedAll(Reader([], []), stream)
  {
    var wire := stream;
    ghost var arrived: Bytes := [];
    while wire != []
      invariant receiver.Valid() && arrived + wire == stream
      invariant receiver.Reading() == FeedAll(Reader([], []), arrived)
      decreases |wire|
    {
      var size: nat :| 0 < size <= |wire|;
      FeedJoins(Reader([], []), arrived, wire[..size]);
      receiver.Receive(wire[..size]);
      arrived := arrived + wire[..size];
      wire := wire[size..];
    }
    assert arrived == stream;
  }

  /** Parses the delivered lines; a line that is no JSON text is passed over. */
  method ParseLines(lines: seq<Bytes>, ghost messages: seq<Json>) returns (parsed: seq<Json>)
    requires lines == Texts(messages) && forall m <- messages :: Printable(m)
    ensures parsed == messages
  {
    parsed := [];
    TextsCount(messages);
    for i := 0 to |lines|
      invariant parsed == messages[..i]
    {
      TextsParse(messages, i);
      var message := ParseText(lines[i]);
      if message.Some? {
        parsed := parsed + [message.value];
      }
    }
  }

  /** What a send that broke off gets across. */
  lemma BrokenWireDelivers(messages: seq<Json>, at: nat, taken: nat, wire: Bytes, after: seq<Bytes>)
    requires forall m <- messages :: Printable(m)
    requires BreaksOff(FramedAll(Texts(messages)), at, taken, wire, after)
    ensures at < |messages| && taken <= |Dump(messages[at])| && after == [Framed(Dump(messages[at]))[taken..]]
    ensures FeedAll(Reader([], []), wire) == Reader(Dump(messages[at])[..taken], Texts(messages[..at]))
  {
    FramedTexts(messages, |messages|);
    FramedTexts(messages, at);
    assert forall m <- messages[..at] :: m in messages;
    QueueIsStream(messages[..at]);
    BrokenStreamDelivers(messages, at, taken);
  }

  lemma StoppedWireDelivers(messages: seq<Json>, at: nat, wire: Bytes)
    requires forall m <- messages :: Printable(m)
    requires at < |FramedAll(Texts(messages))| && wire == Concat(FramedAll(Texts(messages))[..at])
    ensures at < |messages| && FeedAll(Reader([], []), wire) == Reader([], Texts(messages[..at]))
  {
    FramedTexts(messages, |messages|);
    FramedTexts(messages, at);
    assert forall m <- messages[..at] :: m in messages;
    QueueIsStream(messages[..at]);
    StreamDelivers(messages[..at]);
  }

  /** Any messages, any socket, any cutting on the way: what arrives is what was
      sent, or, when the socket fails or the client is stopped, the messages
      before the one it was at. */
  method SendAndReceive(messages: seq<Json>, socket: Socket, running: nat -> bool)
    returns (arrived: seq<Json>, outcome: Sending, ghost at: nat)
    requires forall m <- messages :: Printable(m)
    ensures NeverFails(socket) && (forall i: nat :: running(i)) ==> outcome == Emptied
    ensures outcome == Emptied ==> arrived == messages
    ensures outcome != Emptied ==> at < |messages| && arrived == messages[..at]
  {
    var sender := new IpcClient();
    var receiver := new IpcClient();
    QueueMessages(sender, messages);
    var wire;
    ghost var taken;
    wire, outcome, at, taken := sender.SendQueued(socket, running);
    ReceiveWire(receiver, wire);
    ghost var delivered := messages;
    match outcome {
      case Emptied =>
        QueueIsStream(messages);
        StreamDelivers(messages);
      case BrokeOff =>
        BrokenWireDelivers(messages, at, taken, wire, sender.queue);
        delivered := messages[..at];
      case Stopped =>
        StoppedWireDelivers(messages, at, wire);
        delivered := messages[..at];
    }
    arrived := ParseLines(receiver.received, delivered);
  }

  // ---------------------------------------------------------------------
  // Across a reconnect
  // ---------------------------------------------------------------------

  /** What the runtime's line scanner hands on over a connection that ends: the
      lines, then whatever is left unfinished. */
  function Handed(wire: Bytes): seq<Bytes> {
    var r := FeedAll(Reader([], []), wire);
    Deliver(r.lines, r.buffer)
  }

  /** A text cut in two, empty pieces left out. */
  function Torn(text: Bytes, taken: nat): seq<Bytes>
    requires taken <= |text|
  {
    Deliver(Deliver([], text[..taken]), text[taken..])
  }

  /** The rest of a torn line, then the greeting. */
  lemma RestIsHanded(m: Json, taken: nat, hello: Json)
    requires Printable(m) && Printable(hello) && taken <= |Dump(m)|
    ensures Handed(Concat([Framed(Dump(m))[taken..], Dump(hello) + [NEWLINE]])) ==
            Deliver([], Dump(m)[taken..]) + [Dump(hello)]
  {
    var rest, greeting := Dump(m)[taken..], Dump(hello);
    PrintableHasNoText(m);
    PrintableHasNoText(hello);
    DumpFits(m);
    DumpFits(hello);
    DumpStarts(hello);
    assert Framed(Dump(m))[taken..] == rest + [NEWLINE];
    assert forall b <- rest :: b in Dump(m);
    TwoConcat(rest + [NEWLINE], greeting + [NEWLINE]);
    FeedLine([], rest, greeting + [NEWLINE]);
    FeedLine(Deliver([], rest), greeting, []);
    assert greeting + [NEWLINE] + [] == greeting + [NEWLINE];
  }

  lemma TwoConcat(a: Bytes, b: Bytes)
    ensures Concat([a, b]) == a + b
  {
    assert [a, b][..1] == [a] && [a][..0] == [];
    assert Concat([a]) == [] + a == a;
  }

  /** Messages are sent until the socket fails, then the rest over a connection
      that does not: the message the first one failed at arrives torn in two, and
      those behind it do not arrive. */
  method SendAcross(messages: seq<Json>, hello: Json, socket: Socket, again: Socket)
    returns (handed: seq<Bytes>, broke: bool, ghost at: nat, ghost taken: nat)
    requires Printable(hello) && NeverFails(again) && forall m <- messages :: Printable(m)
    ensures !broke ==> handed == Texts(messages)
    ensures broke ==> at < |messages| && taken <= |Dump(messages[at])|
    ensures broke ==> handed == Texts(messages[..at]) + (Torn(Dump(messages[at]), taken) + [Dump(hello)])
  {
    var sender := new IpcClient();
    QueueMessages(sender, messages);
    var wire, outcome;
    wire, outcome, at, taken := sender.SendQueued(socket, i => true);
    handed, broke := Handed(wire), outcome == BrokeOff;
    if !broke {
      QueueIsStream(messages);
      StreamDelivers(messages);
      return;
    }
    BrokenWireDelivers(messages, at, taken, wire, sender.queue);
    var rest := SendRest(sender, messages[at], taken, hello, again);
    TornJoins(Texts(messages[..at]), Dump(messages[at]), taken, [Dump(hello)]);
    handed := handed + rest;
  }

  method SendRest(sender: IpcClient, ghost m: Json, ghost taken: nat, hello: Json, socket: Socket)
    returns (handed: seq<Bytes>)
    requires Printable(m) && Printable(hello) && NeverFails(socket)
    requires taken <= |Dump(m)| && sender.queue == [Framed(Dump(m))[taken..]]
    modifies sender
    ensures handed == Deliver([], Dump(m)[taken..]) + [Dump(hello)]
  {
    var greeting := DumpText(hello);
    sender.Connect(greeting);
    assert sender.queue == [Framed(Dump(m))[taken..], greeting + [NEWLINE]];
    RestIsHanded(m, taken, hello);
    var wire, outcome;
    ghost var at, part;
    wire, outcome, at, part := sender.SendQueued(socket, i => true);
    handed := Handed(wire);
  }

  lemma TornJoins(lines: seq<Bytes>, text: Bytes, taken: nat, end: seq<Bytes>)
    requires taken <= |text|
    ensures Deliver(lines, text[..taken]) + (Deliver([], text[taken..]) + end) == lines + (Torn(text, taken) + end)
  {
  }

  /** Across a reconnect every message arrives whole, and nothing else does but the
      greeting, exactly when the first connection failed at the last message and
      not inside its text. */
  lemma ReconnectKeepsExactly(messages: seq<Json>, hello: Json, at: nat, taken: nat)
    requires at < |messages| && taken <= |Dump(messages[at])| && Dump(messages[at]) != []
    ensures Texts(messages[..at]) + (Torn(Dump(messages[at]), taken) + [Dump(hello)]) ==
              Texts(messages) + [Dump(hello)] <==>
            at == |messages| - 1 && taken in {0, |Dump(messages[at])|}
  {
    var text, greeting := Dump(messages[at]), [Dump(hello)];
    var torn, texts := Torn(text, taken), Texts(messages);
    TextsAt(messages, at);
    TornParts(text, taken);
    assert texts == texts[..at] + texts[at..];
    Associates(texts[..at], texts[at..], greeting);
    SameFront(texts[..at], torn + greeting, texts[at..] + greeting);
    SameEnd(torn, texts[at..], greeting);
    assert torn == texts[at..] ==> torn[0] == texts[at];
    assert at == |messages| - 1 ==> texts[at..] == [text];
  }

  lemma TornParts(text: Bytes, taken: nat)
    requires text != [] && taken <= |text|
    ensures taken in {0, |text|} ==> Torn(text, taken) == [text]
    ensures taken !in {0, |text|} ==> Torn(text, taken) == [text[..taken], text[taken..]] && text[..taken] != text
  {
    assert taken == |text| ==> text[..taken] == text;
    assert taken == 0 ==> text[taken..] == text;
    assert taken !in {0, |text|} ==> |text[..taken]| < |text|;
  }

  lemma {:induction false} TextsAt(messages: seq<Json>, k: nat)
    requires k < |messages|
    ensures |Texts(messages)| == |messages|
    ensures Texts(messages)[..k] == Texts(messages[..k]) && Texts(messages)[k] == Dump(messages[k])
  {
    var front := messages[..|messages| - 1];
    TextsCount(messages);
    TextsCount(front);
    if k < |front| {
      TextsAt(front, k);
      assert front[..k] == messages[..k];
    } else {
      assert messages[..k] == front;
    }
  }

  lemma Associates<T>(a: seq<T>, b: seq<T>, c: seq<T>)
    ensures (a + b) + c == a + (b + c)
  {
  }

  lemma SameFront<T>(front: seq<T>, a: seq<T>, b: seq<T>)
    ensures front + a == front + b <==> a == b
  {
    if front + a == front + b {
      assert a == (front + a)[|front|..] && b == (front + b)[|front|..];
    }
  }

  lemma SameEnd<T>(a: seq<T>, b: seq<T>, end: seq<T>)
    ensures a + end == b + end <==> a == b
  {
    if a + end == b + end {
      assert |a| == |b| && a == (a + end)[..|a|] && b == (b + end)[..|b|];
    }
  }
}
