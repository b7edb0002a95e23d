/**
 * One iteration of the body generator (Step) and a whole pass (Run), as
 * functions of the session state, the buffer and the read offset.
 */
module Stepping {
  import opened Wrappers
  import opened Frames
  import opened Commands
  import opened Sessions

  /** One yielded element: the tick after the frame, its type, its bytes and the decoded value. */
  datatype Item = Item(tick: int, ctype: byte, raw: seq<byte>, decoded: Command)

  /** What one iteration produces. */
  datatype Emit = Yield(item: Item) | End | StoppedOnDesync | Error(error: ParseError)

  datatype StepResult = StepResult(emit: Emit, next: Session, offset: nat)

  /**
   * Decodes and processes a frame only when the selection lets its type
   * through: an excluded frame changes nothing, and a selected frame that
   * proceeds was decoded and became the decoded value.
   */
  function Gate(cfg: Config, table: DecoderTable, s: Session, f: Frame): (r: Processed)
    ensures !Selected(cfg, f.ctype) ==> r == Processed(Proceed, s)
    ensures Selected(cfg, f.ctype) && f.ctype !in table ==> r == Processed(Raise(UnknownCommandType(f.ctype)), s)
    ensures Selected(cfg, f.ctype) && r.signal.Proceed? ==>
              && f.ctype in table && table[f.ctype](f.payload).Some?
              && r.next.unpacked == table[f.ctype](f.payload)
  {
    if Selected(cfg, f.ctype) then Dispatch(cfg, table, s, f.ctype, f.payload)
    else Processed(Proceed, s)
  }

  /** One iteration of the generator loop, starting at offset `off`. */
  function Step(cfg: Config, table: DecoderTable, s: Session, data: seq<byte>, off: nat): (r: StepResult)
    requires off <= |data|
    ensures off <= r.offset <= |data|
    ensures r.emit.End? <==> |data| < off + HeaderSize
    ensures r.emit.End? ==> r.offset == off
    ensures !r.emit.Yield? ==> r.next == s
    ensures r.emit.Yield? ==>
              && off + HeaderSize <= r.offset
              && r.offset == off + DeclaredLength(data, off)
              && r.emit.item.raw == data[off..r.offset]
              && r.emit.item.ctype == data[off]
              && r.emit.item.tick == r.next.tick
              && r.next.tick == s.tick + (if Selected(cfg, r.emit.item.ctype) then AdvanceOf(r.emit.item.decoded) else 0)
  {
    if |data| < off + HeaderSize then StepResult(End, s, off)
    else match ReadFrame(data, off)
      case Failure(e) => StepResult(Error(e), s, off + HeaderSize)
      case Success(f) =>
        var next := off + |f.raw|;
        var p := Gate(cfg, table, s, f);
        match p.signal
        case DesyncStop => StepResult(StoppedOnDesync, s, next)
        case Raise(e) => StepResult(Error(e), s, next)
        case Proceed =>
          match p.next.unpacked
          case None => StepResult(Error(NoDecodedValue), p.next, next)
          case Some(c) => StepResult(Yield(Item(p.next.tick, f.ctype, f.raw, c)), p.next, next)
  }

  /** A whole pass: the yielded elements, the final state and offset, and how it ended. */
  datatype RunResult = RunResult(items: seq<Item>, final: Session, offset: nat, outcome: Emit)

  function Run(cfg: Config, table: DecoderTable, s: Session, data: seq<byte>, off: nat): (r: RunResult)
    requires off <= |data|
    ensures !r.outcome.Yield?
    ensures off <= r.offset <= |data|
    ensures r.outcome.End? ==> |data| < r.offset + HeaderSize
    decreases |data| - off
  {
    var st := Step(cfg, table, s, data, off);
    if st.emit.Yield? then
      var rest := Run(cfg, table, st.next, data, st.offset);
      rest.(items := [st.emit.item] + rest.items)
    else RunResult([], st.next, st.offset, st.emit)
  }

  lemma AppendAssociates(a: seq<Item>, b: seq<Item>, c: seq<Item>)
    ensures a + (b + c) == (a + b) + c
  {
  }

  /** One unfolding of a pass: its first step, then the pass from where that step left off. */
  lemma RunUnfold(cfg: Config, table: DecoderTable, s: Session, data: seq<byte>, off: nat)
    requires off <= |data|
    ensures var st := Step(cfg, table, s, data, off);
            var r := Run(cfg, table, s, data, off);
            if st.emit.Yield? then
              var rest := Run(cfg, table, st.next, data, st.offset);
              r.items == [st.emit.item] + rest.items && r.final == rest.final
              && r.offset == rest.offset && r.outcome == rest.outcome
            else r == RunResult([], st.next, st.offset, st.emit)
  {
  }

  /** The bytes of the yielded frames, in order. */
  function Raws(items: seq<Item>): seq<byte>
  {
    if items == [] then [] else items[0].raw + Raws(items[1..])
  }

  /** The commands a pass actually decoded and processed. */
  function Decoded(cfg: Config, items: seq<Item>): seq<Command>
  {
    if items == [] then []
    else (if Selected(cfg, items[0].ctype) then [items[0].decoded] else []) + Decoded(cfg, items[1..])
  }

  function SumAdvances(cs: seq<Command>): int
  {
    if cs == [] then 0 else AdvanceOf(cs[0]) + SumAdvances(cs[1..])
  }

  lemma RawsCons(item: Item, rest: seq<Item>)
    ensures Raws([item] + rest) == item.raw + Raws(rest)
  {
    assert ([item] + rest)[1..] == rest;
  }

  /** Two adjacent slices of a buffer join into one slice. */
  lemma AdjacentSlices(data: seq<byte>, i: nat, j: nat, front: seq<byte>, back: seq<byte>)
    requires i <= j <= |data| && front == data[i..j]
    requires j + |back| <= |data| && back == data[j..j + |back|]
    ensures i + |front + back| <= |data| && front + back == data[i..i + |front + back|]
  {
    assert data[i..j + |back|] == data[i..j] + data[j..j + |back|];
  }

  // ---- One frame ----

  /** Fewer than three bytes left ends the pass cleanly, with nothing yielded and nothing changed. */
  lemma ShortBufferEnds(cfg: Config, table: DecoderTable, s: Session, data: seq<byte>, off: nat)
    requires off <= |data| < off + HeaderSize
    ensures Run(cfg, table, s, data, off) == RunResult([], s, off, End)
  {
  }

  /**
   * A frame whose type the selection excludes is framed and skipped: no
   * bookkeeping runs, and the yielded value is the previously decoded command
   * (or the pass fails when there is none yet).
   */
  lemma UnselectedFrameSkipsBookkeeping(cfg: Config, table: DecoderTable, s: Session, data: seq<byte>, off: nat)
    requires off + HeaderSize <= |data|
    requires ReadFrame(data, off).Success? && !Selected(cfg, data[off])
    ensures var r := Step(cfg, table, s, data, off);
            && r.next == s
            && r.offset == off + DeclaredLength(data, off)
            && r.emit == (if s.unpacked.Some? then Yield(Item(s.tick, data[off], data[off..r.offset], s.unpacked.value))
                          else Error(NoDecodedValue))
  {
  }

  /**
   * A selected frame that decodes is processed: when processing proceeds the
   * step yields the tick after it, its type and bytes and the decoded command,
   * and moves to the processed state; a desync stop or a raise ends the pass
   * with the state unchanged.
   */
  lemma SelectedFrameYields(cfg: Config, table: DecoderTable, s: Session, data: seq<byte>, off: nat)
    requires off + HeaderSize <= |data|
    requires ReadFrame(data, off).Success? && Selected(cfg, data[off]) && data[off] in table
    requires table[data[off]](ReadFrame(data, off).value.payload).Some?
    ensures var f := ReadFrame(data, off).value;
            var cmd := table[data[off]](f.payload).value;
            var p := Process(cfg, s, data[off], cmd);
            var r := Step(cfg, table, s, data, off);
            && r.offset == off + |f.raw|
            && (p.signal.Proceed? ==> r.emit == Yield(Item(p.next.tick, data[off], f.raw, cmd)) && r.next == p.next)
            && (p.signal.DesyncStop? ==> r.emit == StoppedOnDesync && r.next == s)
            && (p.signal.Raise? ==> r.emit == Error(p.signal.error) && r.next == s)
  {
  }

  /** A selected frame whose type has no decoder aborts the pass with the state unchanged. */
  lemma UnknownTypeAborts(cfg: Config, table: DecoderTable, s: Session, data: seq<byte>, off: nat)
    requires off + HeaderSize <= |data|
    requires ReadFrame(data, off).Success? && Selected(cfg, data[off]) && data[off] !in table
    ensures var r := Step(cfg, table, s, data, off);
            r.emit == Error(UnknownCommandType(data[off])) && r.next == s
            && Run(cfg, table, s, data, off).items == []
  {
  }

  /** A frame whose header declares less than the header itself aborts the pass. */
  lemma MalformedFrameAborts(cfg: Config, table: DecoderTable, s: Session, data: seq<byte>, off: nat)
    requires off + HeaderSize <= |data| && DeclaredLength(data, off) < HeaderSize
    ensures Run(cfg, table, s, data, off) == RunResult([], s, off + HeaderSize, Error(MalformedFrame))
  {
  }

  /** A frame running past the buffer aborts the pass with OutOfData. */
  lemma TruncatedFrameAborts(cfg: Config, table: DecoderTable, s: Session, data: seq<byte>, off: nat)
    requires off + HeaderSize <= |data| && HeaderSize <= DeclaredLength(data, off)
    requires |data| < off + DeclaredLength(data, off)
    ensures Run(cfg, table, s, data, off) == RunResult([], s, off + HeaderSize, Error(OutOfData))
  {
  }

  /** What every step keeps: desyncs only grow, and without body storage no body appears. */
  lemma StepPreserves(cfg: Config, table: DecoderTable, s: Session, data: seq<byte>, off: nat)
    requires off <= |data|
    ensures var r := Step(cfg, table, s, data, off);
            && s.desyncTicks <= r.next.desyncTicks
            && (cfg.stopOnDesync ==> r.next.desyncTicks == s.desyncTicks)
            && (!cfg.storeBody && s.body == [] && s.tickData == map[] ==>
                  r.next.body == [] && r.next.tickData == map[])
  {
    if off + HeaderSize <= |data| && ReadFrame(data, off).Success? {
      var f := ReadFrame(data, off).value;
      var p := Gate(cfg, table, s, f);
      if Selected(cfg, f.ctype) && f.ctype in table && table[f.ctype](f.payload).Some? {
        assert p == Process(cfg, s, f.ctype, table[f.ctype](f.payload).value);
      }
    }
  }

  /** With every decoder reporting non-negative advances, no step moves the clock back. */
  lemma StepNeverRewinds(cfg: Config, table: DecoderTable, s: Session, data: seq<byte>, off: nat)
    requires off <= |data| && AdvancesNonNegative(table)
    ensures s.tick <= Step(cfg, table, s, data, off).next.tick
  {
    if off + HeaderSize <= |data| && ReadFrame(data, off).Success? {
      var f := ReadFrame(data, off).value;
      if Selected(cfg, f.ctype) && f.ctype in table && table[f.ctype](f.payload).Some? {
        assert AdvanceOf(table[f.ctype](f.payload).value) >= 0;
      }
    }
  }

  // ---- A whole pass ----

  /** The yielded frames lie within the buffer, and a clean end stops right after the last of them. */
  lemma {:induction false} RunConsumedLength(cfg: Config, table: DecoderTable, s: Session, data: seq<byte>, off: nat)
    requires off <= |data|
    ensures var r := Run(cfg, table, s, data, off);
            && off + |Raws(r.items)| <= r.offset
            && (r.outcome.End? ==> off + |Raws(r.items)| == r.offset)
    decreases |data| - off
  {
    var st := Step(cfg, table, s, data, off);
    if st.emit.Yield? {
      RunConsumedLength(cfg, table, st.next, data, st.offset);
      RawsCons(st.emit.item, Run(cfg, table, st.next, data, st.offset).items);
    }
  }

  /** The yielded frames' bytes, joined in order, are the buffer from the start offset on, up to where the last of them ends. */
  lemma {:induction false} RunConsumesFrames(cfg: Config, table: DecoderTable, s: Session, data: seq<byte>, off: nat)
    requires off <= |data|
    ensures var r := Run(cfg, table, s, data, off);
            off + |Raws(r.items)| <= |data| && Raws(r.items) == data[off..off + |Raws(r.items)|]
    decreases |data| - off
  {
    var st := Step(cfg, table, s, data, off);
    RunUnfold(cfg, table, s, data, off);
    if st.emit.Yield? {
      RunConsumesFrames(cfg, table, st.next, data, st.offset);
      var rest := Run(cfg, table, st.next, data, st.offset).items;
      assert Run(cfg, table, s, data, off).items == [st.emit.item] + rest;
      RawsCons(st.emit.item, rest);
      AdjacentSlices(data, off, st.offset, st.emit.item.raw, Raws(rest));
    }
  }

  /**
   * A pass that ends cleanly has yielded the whole buffer from the start
   * offset to where it stopped, frame by frame, and fewer than three bytes
   * remain after it.
   */
  lemma CleanEndConsumesBuffer(cfg: Config, table: DecoderTable, s: Session, data: seq<byte>, off: nat)
    requires off <= |data|
    ensures var r := Run(cfg, table, s, data, off);
            r.outcome.End? ==> Raws(r.items) == data[off..r.offset] && |data| - r.offset < HeaderSize
  {
    RunConsumedLength(cfg, table, s, data, off);
    RunConsumesFrames(cfg, table, s, data, off);
  }

  /** The final tick is the starting tick plus the advances of the commands the pass decoded. */
  lemma {:induction false} RunTickIsSumOfAdvances(cfg: Config, table: DecoderTable, s: Session, data: seq<byte>, off: nat)
    requires off <= |data|
    ensures var r := Run(cfg, table, s, data, off);
            r.final.tick == s.tick + SumAdvances(Decoded(cfg, r.items))
    decreases |data| - off
  {
    var st := Step(cfg, table, s, data, off);
    if st.emit.Yield? {
      RunTickIsSumOfAdvances(cfg, table, st.next, data, st.offset);
      var rest := Run(cfg, table, st.next, data, st.offset);
      var item := st.emit.item;
      var items := [item] + rest.items;
      assert items[1..] == rest.items;
      if Selected(cfg, item.ctype) {
        var cs := [item.decoded] + Decoded(cfg, rest.items);
        assert Decoded(cfg, items) == cs;
        assert cs[1..] == Decoded(cfg, rest.items);
      } else {
        assert Decoded(cfg, items) == Decoded(cfg, rest.items);
      }
    }
  }

  /**
   * With every decoder reporting non-negative advances, every yielded tick
   * lies between the starting and the final tick.
   */
  lemma {:induction false} RunTicksBounded(cfg: Config, table: DecoderTable, s: Session, data: seq<byte>, off: nat)
    requires off <= |data| && AdvancesNonNegative(table)
    ensures var r := Run(cfg, table, s, data, off);
            && s.tick <= r.final.tick
            && forall i | 0 <= i < |r.items| :: s.tick <= r.items[i].tick <= r.final.tick
    decreases |data| - off
  {
    var st := Step(cfg, table, s, data, off);
    StepNeverRewinds(cfg, table, s, data, off);
    if st.emit.Yield? {
      RunTicksBounded(cfg, table, st.next, data, st.offset);
      var rest := Run(cfg, table, st.next, data, st.offset);
      var items := [st.emit.item] + rest.items;
      forall i | 0 < i < |items| ensures s.tick <= items[i].tick <= rest.final.tick {
        assert items[i] == rest.items[i - 1];
      }
    }
  }

  /** With every decoder reporting non-negative advances, the yielded ticks never decrease. */
  lemma {:induction false} RunTicksNonDecreasing(cfg: Config, table: DecoderTable, s: Session, data: seq<byte>, off: nat)
    requires off <= |data| && AdvancesNonNegative(table)
    ensures var r := Run(cfg, table, s, data, off);
            forall i, j | 0 <= i <= j < |r.items| :: r.items[i].tick <= r.items[j].tick
    decreases |data| - off
  {
    var st := Step(cfg, table, s, data, off);
    if st.emit.Yield? {
      RunTicksNonDecreasing(cfg, table, st.next, data, st.offset);
      RunTicksBounded(cfg, table, st.next, data, st.offset);
      var rest := Run(cfg, table, st.next, data, st.offset).items;
      var items := [st.emit.item] + rest;
      forall i, j | 0 <= i <= j < |items| ensures items[i].tick <= items[j].tick {
        if 0 < i {
          assert items[i] == rest[i - 1] && items[j] == rest[j - 1];
        } else if 0 < j {
          assert items[j] == rest[j - 1];
        }
      }
    }
  }

  /** Desync ticks are only ever appended to. */
  lemma {:induction false} RunDesyncTicksAppendOnly(cfg: Config, table: DecoderTable, s: Session, data: seq<byte>, off: nat)
    requires off <= |data|
    ensures s.desyncTicks <= Run(cfg, table, s, data, off).final.desyncTicks
    decreases |data| - off
  {
    var st := Step(cfg, table, s, data, off);
    StepPreserves(cfg, table, s, data, off);
    if st.emit.Yield? {
      RunDesyncTicksAppendOnly(cfg, table, st.next, data, st.offset);
    }
  }

  /** With stopOnDesync, a pass never records a desync: it stops at the first one instead. */
  lemma {:induction false} RunStopOnDesyncRecordsNone(cfg: Config, table: DecoderTable, s: Session, data: seq<byte>, off: nat)
    requires off <= |data| && cfg.stopOnDesync
    ensures Run(cfg, table, s, data, off).final.desyncTicks == s.desyncTicks
    decreases |data| - off
  {
    var st := Step(cfg, table, s, data, off);
    StepPreserves(cfg, table, s, data, off);
    if st.emit.Yield? {
      RunStopOnDesyncRecordsNone(cfg, table, st.next, data, st.offset);
    }
  }

  /** Without body storage, a pass from an empty body leaves the body and the tick buffer empty. */
  lemma {:induction false} RunWithoutStoreBody(cfg: Config, table: DecoderTable, s: Session, data: seq<byte>, off: nat)
    requires off <= |data| && !cfg.storeBody && s.body == [] && s.tickData == map[]
    ensures var r := Run(cfg, table, s, data, off);
            r.final.body == [] && r.final.tickData == map[]
    decreases |data| - off
  {
    var st := Step(cfg, table, s, data, off);
    StepPreserves(cfg, table, s, data, off);
    if st.emit.Yield? {
      RunWithoutStoreBody(cfg, table, st.next, data, st.offset);
    }
  }
}
