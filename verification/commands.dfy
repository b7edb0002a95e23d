/**
 * Decoded commands, as far as the body engine looks into them, and the
 * decoder table that turns a payload into one.
 */
module Commands {
  import opened Wrappers
  import opened Frames

  type Checksum = string

  /** The `Msg` sub-table of a Lua callback argument. */
  datatype MsgTable = MsgTable(to: Option<string>, text: Option<string>)

  /** The fields of a Lua callback argument that the engine reads. */
  datatype LuaTable = LuaTable(sender: Option<string>, msg: Option<MsgTable>)

  datatype Command =
    | Advance(advance: int)
    | SetCommandSource(playerId: int)
    | CommandSourceTerminated
    | VerifyChecksum(checksum: Checksum, tick: int)
    | LuaSimCallback(luaName: string, lua: LuaTable)
    | Other(fields: seq<byte>)   // every command the engine does not look into

  /** A payload decoder: the decoded command, or nothing when the payload is malformed. */
  type Decoder = seq<byte> -> Option<Command>

  /** The registry of decoders, keyed by command type. */
  type DecoderTable = map<byte, Decoder>

  /** The Lua callback whose argument carries a chat message. */
  const RelayCallback: string := "GiveResourcesToPlayer"

  /** How far a command moves the game clock. */
  function AdvanceOf(c: Command): int
  {
    if c.Advance? then c.advance else 0
  }

  /** Every decoder of the table reports a non-negative advance. */
  ghost predicate AdvancesNonNegative(table: DecoderTable)
  {
    forall t, p | t in table && table[t](p).Some? :: AdvanceOf(table[t](p).value) >= 0
  }
}
