/**
 * The Web Serial channel of services/serialService.ts: the connection flags,
 * the listener list, the frames written to the device and the reading loop
 * that cuts the incoming text into lines.
 *
 * The port, its reader and its writer are present-or-absent flags; what the
 * browser's serial API does (a port being granted, opening, a write failing)
 * arrives as method parameters. The text read from the port is a sequence of
 * chunks, already decoded.
 */
module SerialChannel {
  import opened Wrappers
  import opened Strings
  import opened Utils
  import opened Listeners

  // ---------------------------------------------------------- the byte stream

  /** Everything the port has delivered, in order. */
  function Concat(chunks: seq<string>): string {
    if |chunks| == 0 then "" else Concat(chunks[..|chunks| - 1]) + chunks[|chunks| - 1]
  }

  /** The lines a stream has finished: the newline-separated pieces before its last newline. */
  function CompleteLines(text: string): (lines: seq<string>)
    ensures forall i | 0 <= i < |lines| :: '\n' !in lines[i]
  {
    SplitJoin(text, '\n');
    var parts := Split(text, '\n');
    parts[..|parts| - 1]
  }

  /** What the line buffer holds: the text after the last newline. */
  function Pending(text: string): (rest: string)
    ensures '\n' !in rest
  {
    SplitJoin(text, '\n');
    Last(Split(text, '\n'))
  }

  /** Lines written out, each followed by a newline. */
  function Terminated(lines: seq<string>): string {
    if |lines| == 0 then "" else lines[0] + "\n" + Terminated(lines[1..])
  }

  lemma {:induction false} JoinTerminated(parts: seq<string>)
    requires |parts| >= 1
    ensures Join(parts, '\n') == Terminated(parts[..|parts| - 1]) + Last(parts)
  {
    if |parts| > 1 {
      JoinTerminated(parts[1..]);
      assert parts[..|parts| - 1][1..] == parts[1..][..|parts| - 2];
    }
  }

  /** The stream is its complete lines, each with its newline, then the buffer: nothing lost or reordered. */
  lemma StreamDecomposes(text: string)
    ensures text == Terminated(CompleteLines(text)) + Pending(text)
  {
    SplitJoin(text, '\n');
    JoinTerminated(Split(text, '\n'));
  }

  /** The decomposition is the only one: newline-free lines and a newline-free rest are recovered exactly. */
  lemma StreamDecompositionUnique(lines: seq<string>, rest: string)
    requires forall i | 0 <= i < |lines| :: '\n' !in lines[i]
    requires '\n' !in rest
    ensures CompleteLines(Terminated(lines) + rest) == lines
    ensures Pending(Terminated(lines) + rest) == rest
  {
    var parts := lines + [rest];
    assert parts[..|parts| - 1] == lines;
    JoinTerminated(parts);
    assert NoneContains(parts, '\n');
    JoinSplit(parts, '\n');
  }

  /**
   * Appending a chunk finishes the lines of the old buffer followed by the
   * chunk; the buffer continues into the chunk.
   */
  lemma ChunkStep(text: string, chunk: string)
    ensures CompleteLines(text + chunk) == CompleteLines(text) + CompleteLines(Pending(text) + chunk)
    ensures Pending(text + chunk) == Pending(Pending(text) + chunk)
  {
    SplitAppend(text, chunk, '\n');
    var pa := Split(text, '\n');
    var tail := Split(Last(pa) + chunk, '\n');
    var whole := Split(text + chunk, '\n');
    assert whole == pa[..|pa| - 1] + tail;
    assert whole[..|whole| - 1] == pa[..|pa| - 1] + tail[..|tail| - 1];
  }

  /** What one line read from the port makes the listeners receive. */
  function LineDeliveries(line: string, listeners: seq<ListenerId>): seq<Delivery> {
    var trimmed := Trim(line);
    if trimmed == "" then []
    else match Parse(trimmed)
      case None => []
      case Some(m) => FanOut(m, listeners)
  }

  /** The results of `f` on each line, concatenated in line order. */
  function Collect<T>(lines: seq<string>, f: string -> seq<T>): seq<T> {
    if |lines| == 0 then []
    else Collect(lines[..|lines| - 1], f) + f(lines[|lines| - 1])
  }

  lemma {:induction false} CollectAppend<T>(a: seq<string>, b: seq<string>, f: string -> seq<T>)
    ensures Collect(a + b, f) == Collect(a, f) + Collect(b, f)
  {
    if |b| > 0 {
      CollectAppend(a, b[..|b| - 1], f);
      assert (a + b)[..|a + b| - 1] == a + b[..|b| - 1];
    } else {
      assert a + b == a;
    }
  }

  /** The deliveries of a sequence of lines, in line order. */
  function Deliveries(lines: seq<string>, listeners: seq<ListenerId>): seq<Delivery> {
    Collect(lines, line => LineDeliveries(line, listeners))
  }

  /** The deliveries of two runs of lines are those of the first, then those of the second. */
  lemma DeliveriesAppend(a: seq<string>, b: seq<string>, listeners: seq<ListenerId>)
    ensures Deliveries(a + b, listeners) == Deliveries(a, listeners) + Deliveries(b, listeners)
  {
    CollectAppend(a, b, line => LineDeliveries(line, listeners));
  }

  lemma AppendAssociates<T>(a: seq<T>, b: seq<T>, c: seq<T>)
    ensures (a + b) + c == a + (b + c)
  {
  }

  /** One more line adds that line's deliveries at the end. */
  lemma DeliveriesSnoc(lines: seq<string>, line: string, listeners: seq<ListenerId>)
    ensures Deliveries(lines + [line], listeners) == Deliveries(lines, listeners) + LineDeliveries(line, listeners)
  {
    assert (lines + [line])[..|lines|] == lines;
  }

  /** A blank line, or one no tag decodes, reaches no listener. */
  lemma SilentLines(line: string, listeners: seq<ListenerId>)
    requires Trim(line) == "" || Parse(Trim(line)).None?
    ensures LineDeliveries(line, listeners) == []
  {
  }

  /** Each decoded line reaches every listener once, in list order, with the decoded message. */
  lemma DecodedLineReachesAll(line: string, listeners: seq<ListenerId>, m: Message)
    requires Trim(line) != "" && Parse(Trim(line)) == Some(m)
    ensures |LineDeliveries(line, listeners)| == |listeners|
    ensures forall k | 0 <= k < |listeners| :: LineDeliveries(line, listeners)[k] == Delivery(listeners[k], m)
  {
  }

  /**
   * Text after the last newline is never delivered: whatever follows the
   * stream's complete lines, the deliveries are those of the complete lines.
   */
  lemma TrailingTextNotDelivered(lines: seq<string>, rest: string, listeners: seq<ListenerId>)
    requires forall i | 0 <= i < |lines| :: '\n' !in lines[i]
    requires '\n' !in rest
    ensures Deliveries(CompleteLines(Terminated(lines) + rest), listeners) == Deliveries(lines, listeners)
  {
    StreamDecompositionUnique(lines, rest);
  }

  // ---------------------------------------------------------- command frames

  /** `command`, then `,` and the parameters joined by `,` when there are any, then a newline. */
  function Frame(command: string, params: seq<string>): string {
    command + (if |params| > 0 then [','] + Join(params, ',') else "") + "\n"
  }

  /**
   * A frame is one line: cutting off its newline and splitting on commas
   * gives back the command and the parameters, when none of them holds a
   * comma or a newline.
   */
  lemma FrameDecodes(command: string, params: seq<string>)
    requires ',' !in command && '\n' !in command
    requires NoneContains(params, ',') && NoneContains(params, '\n')
    ensures var f := Frame(command, params);
      && |f| >= 1 && f[|f| - 1] == '\n'
      && '\n' !in f[..|f| - 1]
      && Split(f[..|f| - 1], ',') == [command] + params
  {
    var f := Frame(command, params);
    var parts := [command] + params;
    assert NoneContains(parts, ',') && NoneContains(parts, '\n') by {
      forall i | 0 <= i < |parts| ensures ',' !in parts[i] && '\n' !in parts[i] {
        if i > 0 {
          assert parts[i] == params[i - 1];
        }
      }
    }
    if |params| > 0 {
      assert parts[1..] == params;
      assert Join(parts, ',') == command + [','] + Join(params, ',');
    }
    assert f[..|f| - 1] == Join(parts, ',');
    SplitJoin(Join(parts, ','), '\n');
    JoinSplit(parts, ',');
    JoinSplit(parts, '\n');
    assert '\n' !in Join(parts, ',') by {
      SplitWithoutSepJoin(parts, ',', '\n');
    }
  }

  /** Joining pieces free of `c` with a separator other than `c` gives a string free of `c`. */
  lemma {:induction false} SplitWithoutSepJoin(parts: seq<string>, sep: char, c: char)
    requires sep != c && NoneContains(parts, c)
    ensures c !in Join(parts, sep)
  {
    if |parts| > 1 {
      SplitWithoutSepJoin(parts[1..], sep, c);
    }
  }

  // ---------------------------------------------------------- the service

  class SerialService {
    var hasPort: bool
    var hasReader: bool
    var hasWriter: bool
    var isConnected: bool
    var listeners: seq<ListenerId>
    /** The frames written to the device, in order. */
    var written: seq<string>
    /** The listener calls made, in order. */
    var delivered: seq<Delivery>

    constructor()
      ensures !hasPort && !hasReader && !hasWriter && !isConnected
      ensures listeners == [] && written == [] && delivered == []
    {
      hasPort, hasReader, hasWriter, isConnected := false, false, false, false;
      listeners, written, delivered := [], [], [];
    }

    /**
     * `connect`: with the serial API present, a port granted and opened,
     * the channel is connected, the reader and the writer are taken when
     * the port offers them, and a STATUS frame is sent. Any failure before
     * that yields false; a granted port that fails to open stays assigned.
     */
    method Connect(serialApi: bool, portGranted: bool, portOpens: bool, readable: bool, writable: bool,
                   statusWriteOk: bool) returns (ok: bool)
      modifies this`hasPort, this`hasReader, this`hasWriter, this`isConnected, this`written
      ensures ok == (serialApi && portGranted && portOpens)
      ensures hasPort == (old(hasPort) || (serialApi && portGranted))
      ensures isConnected == (old(isConnected) || ok)
      ensures hasReader == (old(hasReader) || (ok && readable))
      ensures hasWriter == (old(hasWriter) || (ok && writable))
      ensures written == if ok && hasWriter && statusWriteOk then old(written) + [Frame("STATUS", [])] else old(written)
    {
      if !serialApi || !portGranted {
        return false;
      }
      hasPort := true;
      if !portOpens {
        return false;
      }
      isConnected := true;
      if readable {
        hasReader := true;
      }
      if writable {
        hasWriter := true;
      }
      var _ := SendCommand("STATUS", [], statusWriteOk);
      ok := true;
    }

    /** The timer `connect` sets: after 500 ms it asks for the student list. */
    method OnListTimer(writeOk: bool) returns (ok: bool)
      modifies this`written
      ensures ok == (old(hasWriter) && old(isConnected) && writeOk)
      ensures written == if ok then old(written) + [Frame("LIST_Mahasiswa", [])] else old(written)
    {
      ok := SendCommand("LIST_Mahasiswa", [], writeOk);
    }

    /**
     * `disconnect`: cancel and drop the reader, drop the writer, close and
     * drop the port, then mark the channel disconnected. A cancel or close
     * that fails throws out of the method and leaves the later steps undone.
     */
    method Disconnect(cancelOk: bool, closeOk: bool) returns (threw: bool)
      modifies this`hasPort, this`hasReader, this`hasWriter, this`isConnected
      ensures threw == ((old(hasReader) && !cancelOk) || (old(hasPort) && !closeOk && (!old(hasReader) || cancelOk)))
      ensures !threw ==> !hasPort && !hasReader && !hasWriter && !isConnected
      ensures old(hasReader) && !cancelOk ==>
        hasReader && hasWriter == old(hasWriter) && hasPort == old(hasPort) && isConnected == old(isConnected)
      ensures threw && (!old(hasReader) || cancelOk) ==>
        !hasReader && !hasWriter && hasPort && isConnected == old(isConnected)
    {
      if hasReader {
        if !cancelOk {
          return true;
        }
        hasReader := false;
      }
      if hasWriter {
        hasWriter := false;
      }
      if hasPort {
        if !closeOk {
          return true;
        }
        hasPort := false;
      }
      isConnected := false;
      threw := false;
    }

    /**
     * The reading loop of `startReading`, run over the chunks the port
     * delivers until it reports done: every complete line, trimmed and
     * non-blank, is decoded and handed to the listeners in arrival order;
     * `rest` is the buffer left when the stream ends, never processed. With
     * no reader the loop never runs.
     */
    method ReadStream(chunks: seq<string>) returns (rest: string)
      modifies this`delivered
      ensures old(hasReader) ==> delivered == old(delivered) + Deliveries(CompleteLines(Concat(chunks)), listeners)
      ensures old(hasReader) ==> rest == Pending(Concat(chunks))
      ensures !old(hasReader) ==> delivered == old(delivered) && rest == ""
      ensures '\n' !in rest
    {
      if !hasReader {
        return "";
      }
      var buffer := "";
      var i := 0;
      while i < |chunks|
        invariant 0 <= i <= |chunks|
        invariant buffer == Pending(Concat(chunks[..i]))
        invariant delivered == old(delivered) + Deliveries(CompleteLines(Concat(chunks[..i])), listeners)
      {
        var text := Concat(chunks[..i]);
        assert chunks[..i + 1][..i] == chunks[..i];
        ChunkStep(text, chunks[i]);
        buffer := buffer + chunks[i];
        var lines := Split(buffer, '\n');
        buffer := Last(lines);
        var finished := CompleteLines(Pending(text) + chunks[i]);
        assert lines[..|lines| - 1] == finished;
        ProcessLines(finished);
        DeliveriesAppend(CompleteLines(text), finished, listeners);
        AppendAssociates(old(delivered), Deliveries(CompleteLines(text), listeners), Deliveries(finished, listeners));
        i := i + 1;
      }
      assert chunks[..|chunks|] == chunks;
      rest := buffer;
    }

    /** The line loop of `startReading`: each line is trimmed, and a non-blank one is processed. */
    method ProcessLines(lines: seq<string>)
      modifies this`delivered
      ensures delivered == old(delivered) + Deliveries(lines, listeners)
    {
      var j := 0;
      while j < |lines|
        invariant 0 <= j <= |lines|
        invariant delivered == old(delivered) + Deliveries(lines[..j], listeners)
      {
        assert lines[..j + 1] == lines[..j] + [lines[j]];
        DeliveriesSnoc(lines[..j], lines[j], listeners);
        AppendAssociates(old(delivered), Deliveries(lines[..j], listeners), LineDeliveries(lines[j], listeners));
        ProcessLine(lines[j]);
        j := j + 1;
      }
      assert lines[..|lines|] == lines;
    }

    /** One line of the loop: trimmed, skipped when blank, otherwise processed. */
    method ProcessLine(line: string)
      modifies this`delivered
      ensures delivered == old(delivered) + LineDeliveries(line, listeners)
    {
      var trimmed := Trim(line);
      if trimmed != "" {
        ProcessMessage(trimmed);
      }
    }

    /** `processMessage`: a line the decoder accepts reaches every listener; any other line reaches none. */
    method ProcessMessage(message: string)
      modifies this`delivered
      ensures delivered == old(delivered) + (match Parse(message) case None => [] case Some(m) => FanOut(m, listeners))
    {
      var parsed := Parse(message);
      if parsed.Some? {
        NotifyListeners(parsed.value);
      }
    }

    /** `notifyListeners`: call each listener with the message, in list order. */
    method NotifyListeners(m: Message)
      modifies this`delivered
      ensures delivered == old(delivered) + FanOut(m, listeners)
    {
      var k := 0;
      while k < |listeners|
        invariant 0 <= k <= |listeners|
        invariant delivered == old(delivered) + FanOut(m, listeners[..k])
      {
        assert listeners[..k + 1][..k] == listeners[..k];
        delivered := delivered + [Delivery(listeners[k], m)];
        k := k + 1;
      }
      assert listeners[..|listeners|] == listeners;
    }

    /**
     * `sendCommand`: refused, with nothing written, unless there is a writer
     * and the channel is connected; otherwise the frame is written, unless
     * the write fails.
     */
    method SendCommand(command: string, params: seq<string>, writeOk: bool) returns (ok: bool)
      modifies this`written
      ensures ok == (old(hasWriter) && old(isConnected) && writeOk)
      ensures written == if ok then old(written) + [Frame(command, params)] else old(written)
    {
      if !hasWriter || !isConnected {
        return false;
      }
      if !writeOk {
        return false;
      }
      written := written + [Frame(command, params)];
      ok := true;
    }

    /** `addStudent`: the ADD_Mahasiswa frame carries name, class, nis and uid, in that order. */
    method AddStudent(name: string, kelas: string, nis: string, uid: string, writeOk: bool) returns (ok: bool)
      modifies this`written
      ensures ok == (old(hasWriter) && old(isConnected) && writeOk)
      ensures written == if ok then old(written) + [Frame("ADD_Mahasiswa", [name, kelas, nis, uid])] else old(written)
    {
      ok := SendCommand("ADD_Mahasiswa", [name, kelas, nis, uid], writeOk);
    }

    /**
     * The parameterless commands: `getStatus`, `getStudentList`, `getLogs`,
     * `requestScan`, `setModeNormal`, `setModeRegister` and `reset`.
     */
    method SendSimple(command: SimpleCommand, writeOk: bool) returns (ok: bool)
      modifies this`written
      ensures ok == (old(hasWriter) && old(isConnected) && writeOk)
      ensures written == if ok then old(written) + [Frame(CommandName(command), [])] else old(written)
    {
      ok := SendCommand(CommandName(command), [], writeOk);
    }

    /** `subscribe`: the callback joins the end of the list. */
    method Subscribe(cb: ListenerId)
      modifies this`listeners
      ensures listeners == old(listeners) + [cb]
    {
      listeners := listeners + [cb];
    }

    /** The function `subscribe` returns: every entry of the callback leaves the list. */
    method Unsubscribe(cb: ListenerId)
      modifies this`listeners
      ensures listeners == Without(old(listeners), cb)
    {
      listeners := Without(listeners, cb);
    }

    method GetConnectionStatus() returns (connected: bool)
      ensures connected == isConnected
    {
      connected := isConnected;
    }
  }

  /** The commands the service sends without parameters. */
  datatype SimpleCommand = Status | StudentList | GetLog | Scan | ModeNormal | ModeRegister | Reset

  function CommandName(c: SimpleCommand): string {
    match c
    case Status => "STATUS"
    case StudentList => "LIST_Mahasiswa"
    case GetLog => "GET_LOG"
    case Scan => "SCAN"
    case ModeNormal => "MODE_NORMAL"
    case ModeRegister => "MODE_REGISTER"
    case Reset => "RESET"
  }
}
