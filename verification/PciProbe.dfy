/** The BAR probe of kernel/drivers/pci.c in its own form: registers written and read back. */
module PciProbe {
  import opened PciBar
  import opened PciDevice

  /** The BARs kept from the slots below `s`: each sane, in slot order. */
  ghost predicate KeptOk(kept: seq<Bar>, s: nat) {
    && (forall k :: 0 <= k < |kept| ==> Sane(kept[k]) && kept[k].index < s)
    && (forall k, l :: 0 <= k < l < |kept| ==> kept[k].index < kept[l].index)
  }

  lemma KeptMore(kept: seq<Bar>, b: Bar, s: nat)
    requires KeptOk(kept, b.index) && Sane(b) && b.index < s
    ensures KeptOk(kept + [b], s)
  {
  }

  /** One function's COMMAND register and BARs. How the hardware answers a write is arbitrary: the
      register reads `answer` (`answerCommand`) of its old value and the value written. */
  class Function {
    const answer: Answer
    const answerCommand: AnswerCommand
    var bars: seq<U32>
    var command: U16

    constructor (answer: Answer, answerCommand: AnswerCommand, bars: seq<U32>, command: U16)
      ensures this.answer == answer && this.answerCommand == answerCommand
      ensures this.bars == bars && this.command == command
    {
      this.answer, this.answerCommand, this.bars, this.command := answer, answerCommand, bars, command;
    }

    method WriteBar(s: nat, v: U32)
      requires s < |bars|
      modifies `bars
      ensures bars == old(bars)[s := answer(s, old(bars[s]), v)]
    {
      bars := bars[s := answer(s, bars[s], v)];
    }

    method WriteCommand(v: U16)
      modifies `command
      ensures command == answerCommand(old(command), v)
    {
      command := answerCommand(command, v);
    }

    /** bar_probe: the masks are those of the slots, no other slot is touched, and slots and COMMAND end
        as the hardware answers the restoring writes. */
    method Probe(s: nat, wide: bool, rawLow: U32, rawHigh: U32) returns (saved: U16, maskLow: U32, maskHigh: U32)
      requires s < |bars| && (wide ==> s + 1 < |bars|)
      requires rawLow == bars[s] && (wide ==> rawHigh == bars[s + 1])
      modifies this
      ensures saved == old(command) && maskLow == Mask(answer, old(bars), s)
      ensures maskHigh == if wide then Mask(answer, old(bars), s + 1) else 0
      ensures |bars| == |old(bars)|
      ensures forall k :: 0 <= k < |bars| && k != s && !(wide && k == s + 1) ==> bars[k] == old(bars[k])
      ensures bars[s] == old(bars[s]) <==> Restores(answer, old(bars), s)
      ensures wide ==> (bars[s + 1] == old(bars[s + 1]) <==> Restores(answer, old(bars), s + 1))
      ensures command == old(command) <==> RestoresCommand(answerCommand, old(command))
    {
      saved := command;
      WriteCommand(saved - saved % 4);
      WriteBar(s, TWO32 - 1);
      if wide {
        WriteBar(s + 1, TWO32 - 1);
      }
      maskLow := bars[s];
      maskHigh := if wide then bars[s + 1] else 0;
      WriteBar(s, rawLow);
      if wide {
        WriteBar(s + 1, rawHigh);
      }
      WriteCommand(saved);
    }

    /** bar_restored */
    method Restored(s: nat, wide: bool, saved: U16, rawLow: U32, rawHigh: U32) returns (ok: bool)
      requires s < |bars| && (wide ==> s + 1 < |bars|)
      ensures ok <==> bars[s] == rawLow && (wide ==> bars[s + 1] == rawHigh) && command == saved
    {
      if bars[s] != rawLow {
        return false;
      }
      if wide && bars[s + 1] != rawHigh {
        return false;
      }
      return command == saved;
    }

    /** bar_decode. On any hardware a BAR is kept exactly when the words read describe one and the
        hardware took back everything the probe wrote; then nothing has changed. */
    method BarDecode(s: nat, slots: nat) returns (d: Decoded)
      requires s < slots <= |bars|
      modifies this
      ensures d == if Undone(answer, answerCommand, old(bars), old(command), s, slots)
                   then Seen(answer, old(bars), s, slots) else NoBar
      ensures |bars| == |old(bars)|
      ensures Undone(answer, answerCommand, old(bars), old(command), s, slots) ==> bars == old(bars) && command == old(command)
      ensures d.Found? ==> Sane(d.bar) && d.bar.index == s && 1 <= d.slots <= 2 && s + d.slots <= slots
    {
      var raw := bars[s];
      if raw == 0 {
        return NoBar;
      }
      if raw % 2 == 1 {
        var saved, mask, _ := Probe(s, false, raw, 0);
        var base, size := Clear(raw, 4), Negate(Clear(mask, 4), TWO32);
        var ok := Restored(s, false, saved, raw, 0);
        if !ok {
          return NoBar;
        }
        TestIsPower(size);
        if size == 0 || !PowerOfTwo(size) || base % size != 0 || base > 0xFFFF || size > 0x10000 {
          return NoBar;
        }
        KeptIoIsSane(s, raw, mask);
        return Found(Bar(s, Io, base, size, false, raw, 0), 1);
      }
      if raw / 2 % 4 == 2 {
        if s + 1 >= slots {
          return NoBar;
        }
        d := DecodeWide(s, slots, raw);
        return;
      }
      var saved, mask, _ := Probe(s, false, raw, 0);
      var base, size := Clear(raw, 16), Negate(Clear(mask, 16), TWO32);
      var ok := Restored(s, false, saved, raw, 0);
      if !ok {
        return NoBar;
      }
      TestIsPower(size);
      if size == 0 || !PowerOfTwo(size) || base % size != 0 || size > TWO32 - base {
        return NoBar;
      }
      return Found(Bar(s, Mem32, base, size, raw / 8 % 2 == 1, raw, 0), 1);
    }

    method DecodeWide(s: nat, slots: nat, raw: U32) returns (d: Decoded)
      requires s + 1 < slots <= |bars| && raw == bars[s] && raw != 0 && IsWide(raw)
      modifies this
      ensures d == if Undone(answer, answerCommand, old(bars), old(command), s, slots)
                   then Seen(answer, old(bars), s, slots) else NoBar
      ensures |bars| == |old(bars)|
      ensures Undone(answer, answerCommand, old(bars), old(command), s, slots) ==> bars == old(bars) && command == old(command)
      ensures d.Found? ==> Sane(d.bar) && d.bar.index == s && d.slots == 2
    {
      var high := bars[s + 1];
      var base := high * TWO32 + Clear(raw, 16);
      var saved, maskLow, maskHigh := Probe(s, true, raw, high);
      var combined := maskHigh * TWO32 + Clear(maskLow, 16);
      var size := Negate(combined, TWO64);
      var ok := Restored(s, true, saved, raw, high);
      if !ok {
        return NoBar;
      }
      TestIsPower(size);
      if combined == 0 || size == 0 || !PowerOfTwo(size) || base % size != 0 || size > TWO64 - 1 - base {
        return NoBar;
      }
      return Found(Bar(s, Mem64, base, size, raw / 8 % 2 == 1, raw, high), 2);
    }

    /** The body of the BAR loop. */
    method ScanSlot(s: nat, slots: nat, ghost room: nat, before: seq<Bar>) returns (next: nat, kept: seq<Bar>)
      requires s < slots <= |bars| && |before| < room && KeptOk(before, s)
      modifies this
      ensures s < next <= slots && |kept| <= room && KeptOk(kept, next) && |bars| == |old(bars)|
      ensures Undone(answer, answerCommand, old(bars), old(command), s, slots) ==>
                && bars == old(bars) && command == old(command)
                && kept + BarsFrom(answer, bars, next, slots, room - |kept|) == before + BarsFrom(answer, bars, s, slots, room - |before|)
    {
      BarsStep(answer, bars, s, slots, room, before);
      var d := BarDecode(s, slots);
      if d.NoBar? {
        return s + 1, before;
      }
      KeptMore(before, d.bar, s + d.slots);
      return s + d.slots, before + [d.bar];
    }

    /** The BAR loop of scan_function. On hardware that takes back what it held, all BAR and COMMAND
        words end as they were and the BARs are those the words describe; on a device that follows the
        specification they are the device's own if and only if no upper half passes for a BAR while
        there is room; on any hardware every BAR kept is sane and no slot is used twice. */
    method ScanBars(slots: nat, room: nat) returns (kept: seq<Bar>)
      requires slots <= |bars|
      modifies this
      ensures AllUndone(answer, answerCommand, old(bars), old(command), slots) ==>
                bars == old(bars) && command == old(command) && kept == BarsFrom(answer, bars, 0, slots, room)
      ensures forall parts :: IsDevice(answer, answerCommand, old(bars), old(command), slots, parts) ==>
                && bars == old(bars) && command == old(command)
                && (kept == Prefix(DeviceBars(old(bars), 0, parts), room) <==> NoneMisleads(answer, old(bars), 0, slots, parts, room))
      ensures |kept| <= room && KeptOk(kept, slots)
    {
      kept := [];
      var s := 0;
      ghost var was, cmd := bars, command;
      ghost var undone, all := AllUndone(answer, answerCommand, was, cmd, slots), BarsFrom(answer, was, 0, slots, room);
      while s < slots
        invariant |bars| == |was| && |kept| <= room && s <= slots
        invariant undone ==> bars == was && command == cmd && kept + BarsFrom(answer, was, s, slots, room - |kept|) == all
        invariant KeptOk(kept, s)
        decreases slots - s
      {
        if |kept| >= room {
          break;
        }
        s, kept := ScanSlot(s, slots, room, kept);
      }
      forall parts | IsDevice(answer, answerCommand, was, cmd, slots, parts)
        ensures undone && (all == Prefix(DeviceBars(was, 0, parts), room) <==> NoneMisleads(answer, was, 0, slots, parts, room))
      {
        DeviceRestores(answer, answerCommand, was, cmd, slots, parts);
        ScanFindsDevice(answer, was, 0, slots, parts, room);
      }
    }
  }
}
