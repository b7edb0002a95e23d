/**
 * The replay body engine: an object whose fields hold the session state and
 * whose methods update them in place, frame by frame. Each method is proved
 * to do what the corresponding function of Sessions or Stepping describes.
 */
module Body {
  import opened Wrappers
  import opened Frames
  import opened Reader
  import opened Commands
  import opened Sessions
  import opened Stepping

  class ReplayBody {
    const reader: ReplayReader
    const decoders: DecoderTable
    const stopOnDesync: bool
    const parseCommands: set<byte>
    const storeBody: bool

    var body: seq<TickData>
    var lastPlayersTick: map<int, int>
    var desyncTicks: seq<int>
    var messages: map<int, ChatMessage>
    var tick: int
    var tickData: TickData
    var playerId: int
    var previousTick: int
    var previousChecksum: Option<Checksum>
    var commandUnpacked: Option<Command>

    function Cfg(): Config
    {
      Config(stopOnDesync, parseCommands, storeBody)
    }

    /** The session state the fields hold. */
    ghost function State(): Session
      reads this
    {
      Session(tick, playerId, lastPlayersTick, desyncTicks, messages,
              previousTick, previousChecksum, tickData, body, commandUnpacked)
    }

    ghost predicate Valid()
      reads this, reader
    {
      reader.Valid()
    }

    constructor (reader: ReplayReader, decoders: DecoderTable, stopOnDesync: bool, parseCommands: set<byte>, storeBody: bool)
      requires reader.Valid()
      ensures Valid()
      ensures this.reader == reader && this.decoders == decoders
      ensures Cfg() == Config(stopOnDesync, parseCommands, storeBody)
      ensures State() == Initial()
    {
      this.reader := reader;
      this.decoders := decoders;
      this.stopOnDesync := stopOnDesync;
      this.parseCommands := parseCommands;
      this.storeBody := storeBody;
      body := [];
      lastPlayersTick := map[];
      desyncTicks := [];
      messages := map[];
      tick := 0;
      tickData := map[];
      playerId := -1;
      previousTick := -1;
      previousChecksum := None;
      commandUnpacked := None;
    }

    /** Updates the session for one decoded command of type `ctype`. */
    method ProcessCommand(ctype: byte, cmd: Command) returns (signal: Signal)
      modifies this
      ensures signal == Process(Cfg(), old(State()), ctype, cmd).signal
      ensures State() == Process(Cfg(), old(State()), ctype, cmd).next
    {
      signal := UpdateForType(cmd);
      if signal.Proceed? {
        RecordCommand(ctype, cmd);
      }
    }

    /** The per-type part of the update: the clock, the command source, checksums and messages. */
    method UpdateForType(cmd: Command) returns (signal: Signal)
      modifies this
      ensures signal == Bookkeep(Cfg(), old(State()), cmd).signal
      ensures State() == Bookkeep(Cfg(), old(State()), cmd).next
    {
      match cmd {
        case Advance(delta) =>
          if storeBody && tickData != map[] {
            body := body + [tickData];
          }
          tickData := map[];
          tick := tick + delta;
        case SetCommandSource(pid) =>
          playerId := pid;
        case CommandSourceTerminated =>
          lastPlayersTick := lastPlayersTick[playerId := tick];
        case VerifyChecksum(checksum, reported) =>
          if reported == previousTick && previousChecksum != Some(checksum) {
            if stopOnDesync {
              return DesyncStop;
            }
            desyncTicks := desyncTicks + [tick];
          }
          previousTick := reported;
          previousChecksum := Some(checksum);
        case LuaSimCallback(name, lua) =>
          if name == RelayCallback && lua.msg.Some? {
            if lua.sender.None? || lua.msg.value.to.None? || lua.msg.value.text.None? {
              return Raise(MissingLuaField);
            }
            messages := messages[tick := ChatMessage(lua.sender.value, lua.msg.value.to.value, lua.msg.value.text.value)];
          }
        case Other(_) =>
      }
      signal := Proceed;
    }

    /** Remembers the command as the decoded value and, with body storage on, files it under the current player. */
    method RecordCommand(ctype: byte, cmd: Command)
      modifies this
      ensures State() == Record(Cfg(), old(State()), ctype, cmd)
    {
      commandUnpacked := Some(cmd);
      if storeBody {
        var entry := if playerId in tickData then tickData[playerId] else map[];
        tickData := tickData[playerId := entry[ctype := cmd]];
      }
    }

    /** Decodes a payload with the decoder registered for its type and processes the result. */
    method ParseNextCommand(ctype: byte, payload: seq<byte>) returns (signal: Signal)
      modifies this
      ensures signal == Dispatch(Cfg(), decoders, old(State()), ctype, payload).signal
      ensures State() == Dispatch(Cfg(), decoders, old(State()), ctype, payload).next
    {
      if ctype !in decoders {
        return Raise(UnknownCommandType(ctype));
      }
      var decoded := decoders[ctype](payload);
      match decoded {
        case None =>
          signal := Raise(DecodeFailed(ctype));
        case Some(cmd) =>
          signal := ProcessCommand(ctype, cmd);
      }
    }

    /**
     * Reads one frame from the reader and, when the selection lets its type
     * through, decodes and processes it; returns the type and the whole frame.
     */
    method ParseCommandAndGetData() returns (signal: Signal, ctype: byte, raw: seq<byte>)
      requires Valid() && reader.pos + HeaderSize <= |reader.data|
      modifies this, reader`pos
      ensures Valid() && reader.data == old(reader.data)
      ensures match ReadFrame(old(reader.data), old(reader.pos))
              case Failure(e) =>
                signal == Raise(e) && State() == old(State()) && reader.pos == old(reader.pos) + HeaderSize
              case Success(f) =>
                && ctype == f.ctype && raw == f.raw
                && reader.pos == old(reader.pos) + |f.raw|
                && signal == Gate(Cfg(), decoders, old(State()), f).signal
                && State() == Gate(Cfg(), decoders, old(State()), f).next
    {
      ghost var frame := ReadFrame(reader.data, reader.pos);
      var typeByte := reader.Read(1);
      var lengthBytes := reader.Read(2);
      ctype := typeByte.value[0];
      var length := U16(lengthBytes.value[0], lengthBytes.value[1]);
      raw := typeByte.value + lengthBytes.value;
      if length < HeaderSize {
        return Raise(MalformedFrame), ctype, raw;
      }
      var payload := reader.Read(length - HeaderSize);
      if payload.None? {
        return Raise(OutOfData), ctype, raw;
      }
      raw := raw + payload.value;
      assert frame.Success? && frame.value == Frame(ctype, raw, payload.value);
      if Selected(Cfg(), ctype) {
        signal := ParseNextCommand(ctype, payload.value);
      } else {
        signal := Proceed;
      }
    }

    /** One iteration of the generator: the next element, or how the pass ends. */
    method Next() returns (emit: Emit)
      requires Valid()
      modifies this, reader`pos
      ensures Valid() && reader.data == old(reader.data)
      ensures var r := Step(Cfg(), decoders, old(State()), old(reader.data), old(reader.pos));
              emit == r.emit && State() == r.next && reader.pos == r.offset
      ensures var whole := Run(Cfg(), decoders, old(State()), old(reader.data), old(reader.pos));
              var rest := Run(Cfg(), decoders, State(), reader.data, reader.pos);
              if emit.Yield? then
                && old(reader.pos) < reader.pos
                && whole.items == [emit.item] + rest.items && whole.final == rest.final
                && whole.offset == rest.offset && whole.outcome == rest.outcome
              else whole == RunResult([], State(), reader.pos, emit)
    {
      ghost var before, at := State(), reader.pos;
      RunUnfold(Cfg(), decoders, before, reader.data, at);
      if reader.Size() < reader.Offset() + HeaderSize {
        return End;
      }
      var signal, ctype, raw := ParseCommandAndGetData();
      match signal {
        case DesyncStop =>
          emit := StoppedOnDesync;
        case Raise(e) =>
          emit := Error(e);
        case Proceed =>
          if commandUnpacked.None? {
            emit := Error(NoDecodedValue);
          } else {
            emit := Yield(Item(tick, ctype, raw, commandUnpacked.value));
          }
      }
    }

    /** Runs the generator to its end, collecting what it yields. */
    method ContinuousParse() returns (items: seq<Item>, outcome: Emit)
      requires Valid()
      modifies this, reader`pos
      ensures Valid() && reader.data == old(reader.data)
      ensures var r := Run(Cfg(), decoders, old(State()), old(reader.data), old(reader.pos));
              items == r.items && outcome == r.outcome && State() == r.final && reader.pos == r.offset
    {
      ghost var cfg, table, data := Cfg(), decoders, reader.data;
      ghost var whole := Run(cfg, table, State(), data, reader.pos);
      items := [];
      while true
        invariant Valid() && reader.data == data
        invariant var rest := Run(cfg, table, State(), data, reader.pos);
                  && whole.items == items + rest.items && whole.final == rest.final
                  && whole.offset == rest.offset && whole.outcome == rest.outcome
        decreases |data| - reader.pos
      {
        ghost var before := items;
        var emit := Next();
        if !emit.Yield? {
          return items, emit;
        }
        items := items + [emit.item];
        AppendAssociates(before, [emit.item], Run(cfg, table, State(), data, reader.pos).items);
      }
    }

    /** Parses the whole body, keeping only the session state and how the pass ended. */
    method Parse() returns (outcome: Emit)
      requires Valid()
      modifies this, reader`pos
      ensures Valid() && reader.data == old(reader.data)
      ensures var r := Run(Cfg(), decoders, old(State()), old(reader.data), old(reader.pos));
              outcome == r.outcome && State() == r.final && reader.pos == r.offset
    {
      var _, o := ContinuousParse();
      outcome := o;
    }
  }
}
