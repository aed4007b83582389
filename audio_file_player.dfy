/** AudioFilePlayer: the decoder-driven player of the sphere visualiser,
    with its analysis ring as an AnalysisRing object. Each method is proved
    to perform the transition of the value model in player_model.dfy. */
module FilePlayer {
  import opened Common
  import opened RingModel
  import opened AnalysisRingClass
  import opened PlayerModel


  class AudioFilePlayer {
    var ring: AnalysisRing
    var loop: bool
    var paused: bool
    var useSine: bool
    var loaded: bool
    var sampleRate: nat
    var channels: nat
    var totalFrames: nat
    var cursorFrames: nat
    var sinePhase: real
    var decoderInit: bool
    var deviceInit: bool
    var decoder: Decoder

    ghost function State(): Player
      reads this, ring
    {
      Player(ring.Model(), loop, paused, useSine, loaded, sampleRate, channels, totalFrames, cursorFrames,
             sinePhase, decoderInit, deviceInit, decoder)
    }

    ghost predicate Valid()
      reads this`ring, this`sampleRate, this`channels, this`decoderInit, this`decoder, ring, ring.buffer
    {
      ring.Valid() && 1 <= sampleRate < U32 && 1 <= channels && ring.capacity == RingCapacity(sampleRate)
      && (decoderInit ==> DecoderInv(decoder, channels))
    }

    /** The constructor: ResetRing at 48000 Hz, then StartDevice, whose
        outcome is `deviceOk`. */
    constructor (deviceOk: bool)
      ensures Valid() && fresh(ring) && fresh(ring.buffer)
      ensures State() == Initial(deviceOk)
    {
      ring := new AnalysisRing();
      loop := false;
      paused := true;
      useSine := true;
      loaded := false;
      sampleRate := DefaultSampleRate;
      channels := DefaultChannels;
      totalFrames := 0;
      cursorFrames := 0;
      sinePhase := 0.0;
      decoderInit := false;
      deviceInit := deviceOk;
      decoder := Decoder([], 0, false, false);
      new;
      ring.ResetRing(sampleRate);
    }

    /** ResetDecoderState. */
    method ResetDecoderState()
      modifies this`cursorFrames, this`sinePhase, this`decoder
      ensures cursorFrames == 0 && sinePhase == 0.0
      ensures decoder == if decoderInit then old(decoder).(pos := 0) else old(decoder)
    {
      cursorFrames := 0;
      sinePhase := 0.0;
      if decoderInit {
        decoder := decoder.(pos := 0);
      }
    }

    /** LoadFile. `outcome` is what `ma_decoder_init_file` yields (None when
        the file does not open) and `deviceOk` whether StartDevice succeeds. */
    method LoadFile(outcome: Option<OpenedFile>, deviceOk: bool) returns (ok: bool)
      requires Valid() && (outcome.Some? ==> Openable(outcome.value))
      modifies this, ring
      ensures Valid() && ring == old(ring)
      ensures var l := Load(old(State()), outcome, deviceOk); State() == l.after && ok == l.ok
    {
      match outcome {
        case None =>
          LoadFailedFile(deviceOk);
          ok := false;
        case Some(f) =>
          ok := LoadOpenedFile(f, deviceOk);
      }
    }

    /** The steps both branches of LoadFile share: take on the stream
        format, ResetRing for its rate, then ResetDecoderState. */
    method Reformat(rate: nat, ch: nat, total: nat)
      requires 1 <= rate < U32 && 1 <= ch && (decoderInit ==> DecoderInv(decoder, ch))
      modifies this`sampleRate, this`channels, this`totalFrames, this`cursorFrames, this`sinePhase, this`decoder, ring
      ensures Valid() && sampleRate == rate && channels == ch && totalFrames == total
      ensures ring.Model() == Reset(rate) && cursorFrames == 0 && sinePhase == 0.0
      ensures decoder == if decoderInit then old(decoder).(pos := 0) else old(decoder)
    {
      sampleRate := rate;
      channels := ch;
      totalFrames := total;
      ring.ResetRing(sampleRate);
      ResetDecoderState();
    }

    /** The branch of LoadFile for a file that does not open. */
    method LoadFailedFile(deviceOk: bool)
      modifies this, ring
      ensures Valid() && ring == old(ring)
      ensures State() == LoadFailed(old(State()), deviceOk)
    {
      decoderInit := false;
      useSine := true;
      loaded := false;
      Reformat(DefaultSampleRate, DefaultChannels, 0);
      deviceInit := deviceOk;
    }

    /** The branch of LoadFile for a file that opens. */
    method LoadOpenedFile(f: OpenedFile, deviceOk: bool) returns (ok: bool)
      requires Openable(f)
      modifies this, ring
      ensures Valid() && ring == old(ring)
      ensures State() == LoadOpened(old(State()), f, deviceOk) && ok == deviceOk
    {
      decoderInit := true;
      decoder := Decoder(f.frames, 0, f.failed, f.endOk);
      Reformat(f.sampleRate, f.channels, f.totalFrames);
      ok := StartAfterLoad(deviceOk);
    }

    /** The tail of LoadFile for an opened file: loaded and paused, then
        StartDevice, whose failure falls back to the sine tone. */
    method StartAfterLoad(deviceOk: bool) returns (ok: bool)
      modifies this`useSine, this`loaded, this`paused, this`deviceInit
      ensures useSine == !deviceOk && loaded == deviceOk && paused && deviceInit == deviceOk && ok == deviceOk
    {
      useSine := false;
      loaded := true;
      paused := true;
      deviceInit := deviceOk;
      if !deviceOk {
        useSine := true;
        loaded := false;
      }
      ok := deviceOk;
    }

    /** Play: start the device if needed (`deviceOk` is the outcome), then
        unpause. */
    method Play(deviceOk: bool)
      requires Valid()
      modifies this`paused, this`deviceInit
      ensures Valid() && ring == old(ring)
      ensures State() == PlayerModel.Play(old(State()), deviceOk)
    {
      if !deviceInit {
        deviceInit := deviceOk;
        if !deviceOk {
          return;
        }
      }
      paused := false;
    }

    /** Pause: only the pause flag changes. */
    method Pause()
      requires Valid()
      modifies this`paused
      ensures Valid() && ring == old(ring)
      ensures State() == PlayerModel.Pause(old(State()))
    {
      paused := true;
    }

    /** Stop: pause, then ResetDecoderState. */
    method Stop()
      requires Valid()
      modifies this`paused, this`cursorFrames, this`sinePhase, this`decoder
      ensures Valid() && ring == old(ring)
      ensures State() == PlayerModel.Stop(old(State()))
    {
      paused := true;
      ResetDecoderState();
    }

    /** SetLoop: only the loop flag changes. */
    method SetLoop(value: bool)
      requires Valid()
      modifies this`loop
      ensures Valid() && ring == old(ring)
      ensures State() == PlayerModel.SetLoop(old(State()), value)
    {
      loop := value;
    }
  }
}
