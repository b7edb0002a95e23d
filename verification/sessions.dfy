/**
 * The session state of one pass over a replay body, and what one decoded
 * command does to it.
 */
module Sessions {
  import opened Wrappers
  import opened Frames
  import opened Commands

  /** The engine's construction options. */
  datatype Config = Config(stopOnDesync: bool, parseCommands: set<byte>, storeBody: bool)

  /** The commands of one player within one tick, keyed by command type. */
  type PlayerCommands = map<byte, Command>

  /** The commands of one tick, keyed by player id. */
  type TickData = map<int, PlayerCommands>

  datatype ChatMessage = ChatMessage(sender: string, to: string, text: string)

  datatype Session = Session(
    tick: int,
    playerId: int,
    lastPlayersTick: map<int, int>,
    desyncTicks: seq<int>,
    messages: map<int, ChatMessage>,
    previousTick: int,
    previousChecksum: Option<Checksum>,
    tickData: TickData,
    body: seq<TickData>,
    unpacked: Option<Command>)   // the last decoded command; None until one is decoded

  function Initial(): Session
  {
    Session(0, -1, map[], [], map[], -1, None, map[], [], None)
  }

  /** What the processing of one command tells the caller. */
  datatype Signal = Proceed | DesyncStop | Raise(error: ParseError)

  datatype Processed = Processed(signal: Signal, next: Session)

  /** The selection gate: an empty selection lets every type through, a non-empty one exactly its members. */
  predicate Selected(cfg: Config, ctype: byte): (b: bool)
    ensures cfg.parseCommands == {} ==> b
    ensures cfg.parseCommands != {} ==> (b <==> ctype in cfg.parseCommands)
  {
    cfg.parseCommands == {} || ctype in cfg.parseCommands
  }

  /** A checksum reported for the tick of the previous report, with a different value. */
  predicate IsDesync(s: Session, checksum: Checksum, tick: int)
  {
    tick == s.previousTick && s.previousChecksum != Some(checksum)
  }

  predicate DetectsDesync(s: Session, cmd: Command)
  {
    cmd.VerifyChecksum? && IsDesync(s, cmd.checksum, cmd.tick)
  }

  /** A relay callback whose argument has a `Msg` sub-table. */
  predicate IsRelayMessage(cmd: Command)
  {
    cmd.LuaSimCallback? && cmd.luaName == RelayCallback && cmd.lua.msg.Some?
  }

  predicate HasChatFields(lua: LuaTable)
    requires lua.msg.Some?
  {
    lua.sender.Some? && lua.msg.value.to.Some? && lua.msg.value.text.Some?
  }

  function ChatOf(lua: LuaTable): ChatMessage
    requires lua.msg.Some? && HasChatFields(lua)
  {
    ChatMessage(lua.sender.value, lua.msg.value.to.value, lua.msg.value.text.value)
  }

  /**
   * `td` with `cmd` filed under player `pid` and type `ctype`: the player's
   * entry is created when missing, an earlier command of that type is
   * replaced, and every other entry is kept.
   */
  function FileUnder(td: TickData, pid: int, ctype: byte, cmd: Command): (r: TickData)
    ensures r.Keys == td.Keys + {pid}
    ensures r[pid].Keys == (if pid in td then td[pid].Keys else {}) + {ctype}
    ensures r[pid][ctype] == cmd
    ensures forall t | pid in td && t in td[pid] && t != ctype :: r[pid][t] == td[pid][t]
    ensures forall p | p in td && p != pid :: r[p] == td[p]
  {
    var entry := if pid in td then td[pid] else map[];
    td[pid := entry[ctype := cmd]]
  }

  /** The per-type state update, before the command is recorded. */
  function Bookkeep(cfg: Config, s: Session, cmd: Command): (r: Processed)
    ensures r.signal == DesyncStop <==> cfg.stopOnDesync && DetectsDesync(s, cmd)
    ensures r.signal == Raise(MissingLuaField) <==> IsRelayMessage(cmd) && !HasChatFields(cmd.lua)
    ensures r.signal.Proceed? || r.signal == DesyncStop || r.signal == Raise(MissingLuaField)
    ensures !r.signal.Proceed? ==> r.next == s
    ensures r.signal.Proceed? ==> r.next.tick == s.tick + AdvanceOf(cmd)
    ensures r.signal.Proceed? ==>
              r.next.desyncTicks == s.desyncTicks + (if DetectsDesync(s, cmd) then [s.tick] else [])
    ensures !cfg.storeBody ==> r.next.body == s.body
    ensures !cfg.storeBody && s.tickData == map[] ==> r.next.tickData == map[]
  {
    match cmd
    case Advance(delta) =>
      var body := if cfg.storeBody && s.tickData != map[] then s.body + [s.tickData] else s.body;
      Processed(Proceed, s.(body := body, tickData := map[], tick := s.tick + delta))
    case SetCommandSource(pid) =>
      Processed(Proceed, s.(playerId := pid))
    case CommandSourceTerminated =>
      Processed(Proceed, s.(lastPlayersTick := s.lastPlayersTick[s.playerId := s.tick]))
    case VerifyChecksum(checksum, tick) =>
      if IsDesync(s, checksum, tick) && cfg.stopOnDesync then Processed(DesyncStop, s)
      else
        var desyncs := if IsDesync(s, checksum, tick) then s.desyncTicks + [s.tick] else s.desyncTicks;
        Processed(Proceed, s.(desyncTicks := desyncs, previousTick := tick, previousChecksum := Some(checksum)))
    case LuaSimCallback(_, lua) =>
      if !IsRelayMessage(cmd) then Processed(Proceed, s)
      else if !HasChatFields(lua) then Processed(Raise(MissingLuaField), s)
      else Processed(Proceed, s.(messages := s.messages[s.tick := ChatOf(lua)]))
    case Other(_) =>
      Processed(Proceed, s)
  }

  /** Remembers the decoded command and, with body storage on, files it under the current player. */
  function Record(cfg: Config, s: Session, ctype: byte, cmd: Command): (r: Session)
    ensures r.unpacked == Some(cmd)
    ensures r.tick == s.tick && r.playerId == s.playerId && r.body == s.body && r.desyncTicks == s.desyncTicks
    ensures r.lastPlayersTick == s.lastPlayersTick && r.messages == s.messages
    ensures r.previousTick == s.previousTick && r.previousChecksum == s.previousChecksum
    ensures cfg.storeBody ==> r.tickData == FileUnder(s.tickData, s.playerId, ctype, cmd)
    ensures !cfg.storeBody ==> r.tickData == s.tickData
  {
    var s1 := s.(unpacked := Some(cmd));
    if cfg.storeBody then s1.(tickData := FileUnder(s1.tickData, s1.playerId, ctype, cmd))
    else s1
  }

  /** Processes one decoded command of type `ctype`. */
  function Process(cfg: Config, s: Session, ctype: byte, cmd: Command): (r: Processed)
    ensures r.signal == DesyncStop <==> cfg.stopOnDesync && DetectsDesync(s, cmd)
    ensures r.signal == Raise(MissingLuaField) <==> IsRelayMessage(cmd) && !HasChatFields(cmd.lua)
    ensures r.signal.Proceed? || r.signal == DesyncStop || r.signal == Raise(MissingLuaField)
    ensures !r.signal.Proceed? ==> r.next == s
    ensures r.signal.Proceed? ==> r.next.tick == s.tick + AdvanceOf(cmd) && r.next.unpacked == Some(cmd)
    ensures r.signal.Proceed? ==>
              r.next.desyncTicks == s.desyncTicks + (if DetectsDesync(s, cmd) then [s.tick] else [])
    ensures s.desyncTicks <= r.next.desyncTicks
    ensures cfg.stopOnDesync ==> r.next.desyncTicks == s.desyncTicks
    ensures !cfg.storeBody ==> r.next.body == s.body
    ensures !cfg.storeBody && s.tickData == map[] ==> r.next.tickData == map[]
    ensures !cmd.Advance? ==> r.next.body == s.body
    ensures !cmd.SetCommandSource? ==> r.next.playerId == s.playerId
    ensures !cmd.CommandSourceTerminated? ==> r.next.lastPlayersTick == s.lastPlayersTick
    ensures !cmd.VerifyChecksum? ==> r.next.previousTick == s.previousTick && r.next.previousChecksum == s.previousChecksum
    ensures !IsRelayMessage(cmd) ==> r.next.messages == s.messages
  {
    var b := Bookkeep(cfg, s, cmd);
    if b.signal.Proceed? then Processed(Proceed, Record(cfg, b.next, ctype, cmd)) else b
  }

  /** Looks the type up in the decoder table, decodes the payload and processes the result. */
  function Dispatch(cfg: Config, table: DecoderTable, s: Session, ctype: byte, payload: seq<byte>): (r: Processed)
    ensures ctype !in table ==> r == Processed(Raise(UnknownCommandType(ctype)), s)
    ensures ctype in table && table[ctype](payload).None? ==> r == Processed(Raise(DecodeFailed(ctype)), s)
    ensures ctype in table && table[ctype](payload).Some? ==>
              r == Process(cfg, s, ctype, table[ctype](payload).value)
  {
    if ctype !in table then Processed(Raise(UnknownCommandType(ctype)), s)
    else match table[ctype](payload)
      case None => Processed(Raise(DecodeFailed(ctype)), s)
      case Some(cmd) => Process(cfg, s, ctype, cmd)
  }

  // ---- What each kind of command does ----

  /** What recording does to the tick buffer: file the command under the player when storing. */
  function Filed(cfg: Config, td: TickData, pid: int, ctype: byte, cmd: Command): TickData
  {
    if cfg.storeBody then FileUnder(td, pid, ctype, cmd) else td
  }

  /**
   * An Advance files the finished tick (only when storing and non-empty),
   * empties the buffer and moves the clock; nothing else changes but the record.
   */
  lemma AdvanceFlushesTick(cfg: Config, s: Session, ctype: byte, delta: int)
    ensures var r := Process(cfg, s, ctype, Advance(delta));
            && r.signal == Proceed
            && r.next.tick == s.tick + delta
            && r.next.body == (if cfg.storeBody && s.tickData != map[] then s.body + [s.tickData] else s.body)
            && r.next.tickData == (if cfg.storeBody then map[s.playerId := map[ctype := Advance(delta)]] else map[])
            && r.next.unpacked == Some(Advance(delta))
            && r.next.playerId == s.playerId && r.next.lastPlayersTick == s.lastPlayersTick
            && r.next.desyncTicks == s.desyncTicks && r.next.messages == s.messages
            && r.next.previousTick == s.previousTick && r.next.previousChecksum == s.previousChecksum
  {
  }

  /** SetCommandSource changes the player id, under which the command itself is then filed, and nothing else. */
  lemma SetCommandSourceSetsPlayer(cfg: Config, s: Session, ctype: byte, pid: int)
    ensures var r := Process(cfg, s, ctype, SetCommandSource(pid));
            && r.signal == Proceed
            && r.next.playerId == pid
            && r.next.tickData == Filed(cfg, s.tickData, pid, ctype, SetCommandSource(pid))
            && r.next.unpacked == Some(SetCommandSource(pid))
            && r.next.tick == s.tick && r.next.lastPlayersTick == s.lastPlayersTick
            && r.next.previousTick == s.previousTick && r.next.previousChecksum == s.previousChecksum
            && r.next.messages == s.messages && r.next.desyncTicks == s.desyncTicks && r.next.body == s.body
  {
  }

  /** CommandSourceTerminated records the current tick for the current player; nothing else changes but the record. */
  lemma TerminationRecordsLastTick(cfg: Config, s: Session, ctype: byte)
    ensures var r := Process(cfg, s, ctype, CommandSourceTerminated);
            && r.signal == Proceed
            && r.next.lastPlayersTick == s.lastPlayersTick[s.playerId := s.tick]
            && r.next.tickData == Filed(cfg, s.tickData, s.playerId, ctype, CommandSourceTerminated)
            && r.next.unpacked == Some(CommandSourceTerminated)
            && r.next.tick == s.tick && r.next.playerId == s.playerId
            && r.next.previousTick == s.previousTick && r.next.previousChecksum == s.previousChecksum
            && r.next.messages == s.messages && r.next.desyncTicks == s.desyncTicks && r.next.body == s.body
  {
  }

  /**
   * VerifyChecksum: a desync is recorded at the current game tick exactly when
   * the rule holds; with stopOnDesync the pass stops before anything is
   * recorded; otherwise the reported pair becomes the previous observation,
   * and nothing else changes but the record.
   */
  lemma ChecksumObservation(cfg: Config, s: Session, ctype: byte, checksum: Checksum, tick: int)
    ensures var cmd := VerifyChecksum(checksum, tick);
            var r := Process(cfg, s, ctype, cmd);
            && (cfg.stopOnDesync && IsDesync(s, checksum, tick) ==> r == Processed(DesyncStop, s))
            && (!(cfg.stopOnDesync && IsDesync(s, checksum, tick)) ==>
                  && r.signal == Proceed
                  && r.next.previousTick == tick
                  && r.next.previousChecksum == Some(checksum)
                  && (r.next.desyncTicks == s.desyncTicks + [s.tick] <==> IsDesync(s, checksum, tick))
                  && (r.next.desyncTicks == s.desyncTicks <==> !IsDesync(s, checksum, tick))
                  && r.next.tickData == Filed(cfg, s.tickData, s.playerId, ctype, cmd)
                  && r.next.unpacked == Some(cmd)
                  && r.next.tick == s.tick && r.next.messages == s.messages
                  && r.next.playerId == s.playerId && r.next.lastPlayersTick == s.lastPlayersTick
                  && r.next.body == s.body)
  {
  }

  /**
   * A complete relay message is stored under the current tick; every other
   * callback leaves the messages alone; nothing else changes but the record.
   */
  lemma RelayMessageCaptured(cfg: Config, s: Session, ctype: byte, name: string, lua: LuaTable)
    ensures var cmd := LuaSimCallback(name, lua);
            var r := Process(cfg, s, ctype, cmd);
            && (IsRelayMessage(cmd) && HasChatFields(lua) ==>
                  r.signal == Proceed && r.next.messages == s.messages[s.tick := ChatOf(lua)])
            && (IsRelayMessage(cmd) && !HasChatFields(lua) ==> r == Processed(Raise(MissingLuaField), s))
            && (!IsRelayMessage(cmd) ==> r.signal == Proceed && r.next.messages == s.messages)
            && (r.signal == Proceed ==>
                  r.next.tickData == Filed(cfg, s.tickData, s.playerId, ctype, cmd) && r.next.unpacked == Some(cmd))
            && r.next.tick == s.tick && r.next.desyncTicks == s.desyncTicks
            && r.next.playerId == s.playerId && r.next.lastPlayersTick == s.lastPlayersTick
            && r.next.previousTick == s.previousTick && r.next.previousChecksum == s.previousChecksum
            && r.next.body == s.body
  {
  }

  /** A command of any other type changes nothing but the record. */
  lemma OtherOnlyRecorded(cfg: Config, s: Session, ctype: byte, fields: seq<byte>)
    ensures var r := Process(cfg, s, ctype, Other(fields));
            && r.signal == Proceed
            && r.next == s.(tickData := Filed(cfg, s.tickData, s.playerId, ctype, Other(fields)),
                            unpacked := Some(Other(fields)))
  {
  }

  /**
   * With body storage on, a processed command is filed under the player and
   * type current after its bookkeeping, replacing an earlier one there; the
   * player's commands of other types and other players' entries are kept
   * (an Advance starts from an emptied buffer).
   */
  lemma CommandFiledUnderPlayer(cfg: Config, s: Session, ctype: byte, cmd: Command)
    requires cfg.storeBody
    ensures var r := Process(cfg, s, ctype, cmd);
            var pid := r.next.playerId;
            r.signal.Proceed? ==>
              && r.next.tickData == FileUnder(if cmd.Advance? then map[] else s.tickData, pid, ctype, cmd)
              && pid in r.next.tickData
              && ctype in r.next.tickData[pid]
              && r.next.tickData[pid][ctype] == cmd
              && (!cmd.Advance? ==> forall p | p in s.tickData && p != pid ::
                                      p in r.next.tickData && r.next.tickData[p] == s.tickData[p])
              && (!cmd.Advance? && pid in s.tickData ==>
                    forall t | t in s.tickData[pid] && t != ctype ::
                      t in r.next.tickData[pid] && r.next.tickData[pid][t] == s.tickData[pid][t])
  {
  }

  /**
   * Two checksum reports for the same tick with different values, the first
   * of which matches the observation before it, record exactly one desync at
   * the game tick current when the second is processed.
   */
  lemma TwoReportsOneDesync(cfg: Config, s: Session, ctype: byte, c1: Checksum, c2: Checksum, reported: int)
    requires !cfg.stopOnDesync && c1 != c2 && !IsDesync(s, c1, reported)
    ensures var r1 := Process(cfg, s, ctype, VerifyChecksum(c1, reported));
            var r2 := Process(cfg, r1.next, ctype, VerifyChecksum(c2, reported));
            && r1.next.desyncTicks == s.desyncTicks
            && r2.signal == Proceed
            && r2.next.desyncTicks == s.desyncTicks + [r1.next.tick]
  {
    var r1 := Process(cfg, s, ctype, VerifyChecksum(c1, reported));
    assert r1.next.previousTick == reported && r1.next.previousChecksum == Some(c1);
  }

  /** The relay example: Sender "A" with Msg {to: "B", text: "hi"} is stored under the current tick. */
  lemma RelayExample(cfg: Config, s: Session, ctype: byte)
    ensures var lua := LuaTable(Some("A"), Some(MsgTable(Some("B"), Some("hi"))));
            var r := Process(cfg, s, ctype, LuaSimCallback(RelayCallback, lua));
            r.signal == Proceed && s.tick in r.next.messages && r.next.messages[s.tick] == ChatMessage("A", "B", "hi")
  {
  }
}
