/** The audio sources a layer mixes from (stream_layers.c): a file and a synthesis job. Each
    merge call lays samples into the tick's frame from `at` on, using up `slots`. */
module Sources {
  import opened Audio
  import opened Fifo

  /** A decoded-on-the-fly frame of a file; other formats advance the frame without mixing. */
  datatype VoiceFrame =
    | AlawFrame(coded: seq<byte>)
    | MulawFrame(coded: seq<byte>)
    | SlinFrame(samples: seq<short>)
    | OtherFrame(count: nat)
  {
    function Size(): nat {
      match this
      case AlawFrame(coded) => |coded|
      case MulawFrame(coded) => |coded|
      case SlinFrame(samples) => |samples|
      case OtherFrame(count) => count
    }
  }

  /** The codec tables. */
  datatype Codec = Codec(alaw: byte -> short, mulaw: byte -> short)
  {
    function Sample(frame: VoiceFrame, i: nat): short
      requires i < frame.Size()
    {
      match frame
      case AlawFrame(coded) => alaw(coded[i])
      case MulawFrame(coded) => mulaw(coded[i])
      case SlinFrame(samples) => samples[i]
      case OtherFrame(_) => 0
    }

    function Decode(frame: VoiceFrame): (r: seq<short>)
      ensures |r| == frame.Size()
    {
      seq(frame.Size(), i requires 0 <= i < frame.Size() => Sample(frame, i))
    }

    function DecodeAll(frames: seq<VoiceFrame>): seq<short> {
      if frames == [] then [] else Decode(frames[0]) + DecodeAll(frames[1..])
    }
  }

  /** A-law bytes are decoded by the one table, mu-law bytes by the other, linear samples are taken
      as they are, and other formats are silent. */
  lemma DecodedBy(codec: Codec, coded: seq<byte>, samples: seq<short>, count: nat)
    ensures |codec.Decode(AlawFrame(coded))| == |codec.Decode(MulawFrame(coded))| == |coded|
    ensures forall i :: 0 <= i < |coded| ==> codec.Decode(AlawFrame(coded))[i] == codec.alaw(coded[i])
    ensures forall i :: 0 <= i < |coded| ==> codec.Decode(MulawFrame(coded))[i] == codec.mulaw(coded[i])
    ensures codec.Decode(SlinFrame(samples)) == samples && codec.Decode(OtherFrame(count)) == Silence(count)
  {
  }

  /** The frames of a file are decoded one after the other, in order. */
  lemma {:induction false} DecodedInOrder(codec: Codec, a: seq<VoiceFrame>, frame: VoiceFrame, b: seq<VoiceFrame>)
    ensures codec.DecodeAll(a + [frame] + b) == codec.DecodeAll(a) + codec.Decode(frame) + codec.DecodeAll(b)
  {
    hide Codec.Decode;
    var all := a + [frame] + b;
    if a == [] {
      assert all[0] == frame && all[1..] == b;
      assert codec.DecodeAll(a) + codec.Decode(frame) == codec.Decode(frame);
    } else {
      assert all[0] == a[0] && all[1..] == a[1..] + [frame] + b;
      DecodedInOrder(codec, a[1..], frame, b);
      Join(codec.Decode(a[0]), codec.DecodeAll(a[1..]), codec.Decode(frame));
      Join(codec.Decode(a[0]), codec.DecodeAll(a[1..]) + codec.Decode(frame), codec.DecodeAll(b));
    }
  }

  /** The frame holds `laid` and is silent behind it. */
  ghost predicate Laid(target: array<short>, laid: seq<short>)
    reads target
  {
    |laid| <= target.Length && target[..] == laid + Silence(target.Length - |laid|)
  }

  method MixSample(target: array<short>, at: nat, sample: short, ghost laid: seq<short>)
    requires Laid(target, laid) && at == |laid| < target.Length
    modifies target
    ensures Laid(target, laid + [sample])
  {
    assert target[..][at] == 0;
    target[at] := SaturatedAdd(target[at], sample);
    assert target[..] == laid + [sample] + Silence(target.Length - |laid| - 1);
  }

  /** Mixes `samples` from `off` on until they or the slots are used up. */
  method MixSamples(samples: seq<short>, off: nat, target: array<short>, at: nat, slots: nat, ghost laid: seq<short>)
    returns (off': nat, at': nat, slots': nat)
    requires off <= |samples|
    requires Laid(target, laid) && at == |laid| && at + Min(slots, |samples| - off) <= target.Length
    modifies target
    ensures off' == off + if slots < |samples| - off then slots else |samples| - off
    ensures Laid(target, laid + samples[off..off'])
    ensures at' == at + (off' - off) && slots' == slots - (off' - off)
  {
    off', at', slots' := off, at, slots;
    assert laid + samples[off..off] == laid;
    while off' < |samples|
      invariant off <= off' <= |samples| && off' - off <= slots
      invariant Laid(target, laid + samples[off..off'])
      invariant at' == at + (off' - off) && slots' == slots - (off' - off)
    {
      if slots' == 0 {
        return;
      }
      MixSample(target, at', samples[off'], laid + samples[off..off']);
      assert laid + samples[off..off'] + [samples[off']] == laid + samples[off..off' + 1];
      off', at', slots' := off' + 1, at' + 1, slots' - 1;
    }
  }

  class FileSource {
    const codec: Codec
    var frames: seq<VoiceFrame>  // what the stream has not returned yet
    var buffered: Option<VoiceFrame>
    var off: nat

    ghost predicate Valid()
      reads this
    {
      buffered.Some? ==> off <= buffered.value.Size()
    }

    /** The decoded samples still to be mixed. */
    ghost function Rest(): seq<short>
      reads this
      requires Valid()
    {
      (if buffered.Some? then codec.Decode(buffered.value)[off..] else []) + codec.DecodeAll(frames)
    }

    /** Reads left before the stream ends, and whether one frame is at hand. */
    ghost function Work(): nat
      reads this
    {
      2 * |frames| + if buffered.Some? then 1 else 0
    }

    constructor (codec: Codec, frames: seq<VoiceFrame>)
      ensures Valid() && Rest() == codec.DecodeAll(frames)
    {
      this.codec, this.frames, buffered, off := codec, frames, None, 0;
      new;
      assert [] + codec.DecodeAll(frames) == codec.DecodeAll(frames);
    }

    method BufferFrame()
      requires Valid() && buffered.None?
      modifies this
      ensures Valid() && Rest() == old(Rest())
      ensures buffered.Some? == (old(frames) != [])
      ensures buffered.Some? ==> off == 0 && Work() == old(Work()) - 1
      ensures buffered.None? ==> Rest() == []
    {
      if frames == [] {
        return;
      }
      buffered, off := Some(frames[0]), 0;
      frames := frames[1..];
      assert codec.Decode(buffered.value)[0..] == codec.Decode(buffered.value);
    }

    /** Mixes the buffered frame until it or the slots are used up. */
    method MixBuffered(target: array<short>, at: nat, slots: nat, ghost laid: seq<short>)
      returns (at': nat, slots': nat, ghost added: seq<short>)
      requires Valid() && buffered.Some?
      requires Laid(target, laid) && at == |laid| && at + Min(slots, buffered.value.Size() - off) <= target.Length
      modifies this`off, target
      ensures Valid() && old(Rest()) == added + Rest()
      ensures Laid(target, laid + added) && at' == at + |added| && slots' == slots - |added|
      ensures off < buffered.value.Size() ==> slots' == 0
    {
      hide Laid, Codec.Decode, Codec.DecodeAll;
      var samples := codec.Decode(buffered.value);
      ghost var from, rest := off, codec.DecodeAll(frames);
      var off';
      off', at', slots' := MixSamples(samples, off, target, at, slots, laid);
      added, off := samples[off..off'], off';
      assert samples[from..] + rest == samples[from..off'] + (samples[off'..] + rest);
    }

    /** merge_source_file; `ended` is its return value 0, after which the source is stopped. What
        is mixed is the front of the samples left, and the source ends exactly when none are. */
    method Merge(target: array<short>, at: nat, slots: nat, ghost laid: seq<short>)
      returns (ended: bool, at': nat, slots': nat, ghost added: seq<short>)
      requires Valid() && slots > 0
      requires Laid(target, laid) && at == |laid| && at + Min(slots, |Rest()|) <= target.Length
      modifies this, target
      ensures Valid() && old(Rest()) == added + Rest()
      ensures Laid(target, laid + added) && at' == at + |added| && slots' == slots - |added|
      ensures ended ==> Rest() == added == []
      ensures !ended ==> slots' < slots || Work() < old(Work())
      ensures !ended ==> Work() <= old(Work())
    {
      hide Codec.Decode, Codec.DecodeAll;
      at', slots', added := at, slots, [];
      assert laid + [] == laid;
      if buffered.None? {
        BufferFrame();
      }
      if buffered.None? {
        return true, at', slots', added;
      }
      ended := false;
      at', slots', added := MixBuffered(target, at, slots, laid);
      if off == buffered.value.Size() {
        DropBuffered();
      }
    }

    method DropBuffered()
      requires Valid() && buffered.Some? && off == buffered.value.Size()
      modifies this`buffered
      ensures Valid() && buffered.None? && Rest() == old(Rest())
    {
      assert codec.Decode(buffered.value)[off..] == [];
      buffered := None;
    }
  }
}
