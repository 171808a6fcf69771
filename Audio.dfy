// Audio processing for hardware emulation (kmobile-desktop/src/audio.rs):
// the recording state, the shared input buffer the capture callback fills
// and the transcriber drains, the loopback router, speech output and the
// defaults. Audio devices and the speech engines are foreign libraries:
// what they report is a parameter. Samples are floats never computed with.

module Audio {
  import opened Common

  /** `anyhow::Result`: errors are messages. */
  type XResult<T> = Result<T, string>

  datatype VoiceSettings = VoiceSettings(rate: real, pitch: real, volume: real, voiceId: Option<string>)

  /** `VoiceSettings::default` */
  const DefaultVoice := VoiceSettings(1.0, 1.0, 0.8, None)

  datatype AudioConfig = AudioConfig(sampleRate: nat, channels: nat, bufferSize: nat, voiceSettings: VoiceSettings)

  /** `AudioConfig::default`: CD-rate stereo, 1024-sample buffers. */
  const DefaultAudioConfig := AudioConfig(44100, 2, 1024, DefaultVoice)

  /** The default input configuration an input device reports. */
  datatype InputConfig = InputConfig(sampleRate: nat, channels: nat, sampleFormat: string)

  /** An input device: what `default_input_config` answers for it. */
  datatype InputDevice = InputDevice(defaultConfig: Result<InputConfig, string>)

  /** The capture callback keeps the last five seconds of samples. */
  function MaxSamples(config: InputConfig): nat
  {
    config.sampleRate * config.channels * 5
  }

  /** The newest `limit` samples of `s` (all of them when there are fewer). */
  function Newest(s: seq<real>, limit: nat): (r: seq<real>)
    ensures |r| == if |s| <= limit then |s| else limit
    ensures r == s[|s| - |r|..]
  {
    if |s| > limit then s[|s| - limit..] else s
  }

  const TooShort := "Audio too short"
  const Transcription := "[STT transcription would appear here]"
  const NothingCaptured := "No audio data captured"

  /** `SttEngine::transcribe`: fewer than 8000 samples (a second at 8 kHz)
    * is too short; anything longer gets the placeholder transcription. */
  function Transcribe(samples: seq<real>): (text: string)
    ensures text == TooShort <==> |samples| < 8000
    ensures text == Transcription <==> |samples| >= 8000
  {
    if |samples| < 8000 then TooShort else Transcription
  }

  /** The three routes `AudioRouter` switches together. */
  class Router {
    var deviceToAgent: bool
    var agentToDevice: bool
    var loopbackEnabled: bool

    constructor()
      ensures !deviceToAgent && !agentToDevice && !loopbackEnabled
    {
      deviceToAgent := false;
      agentToDevice := false;
      loopbackEnabled := false;
    }

    method EnableLoopback()
      modifies this
      ensures deviceToAgent && agentToDevice && loopbackEnabled
    {
      loopbackEnabled := true;
      deviceToAgent := true;
      agentToDevice := true;
    }

    method DisableLoopback()
      modifies this
      ensures !deviceToAgent && !agentToDevice && !loopbackEnabled
    {
      loopbackEnabled := false;
      deviceToAgent := false;
      agentToDevice := false;
    }
  }

  /** A sample buffer shared between the processor and the capture
    * callback (`Arc<Mutex<Vec<f32>>>`). */
  class SampleBuffer {
    var samples: seq<real>

    constructor()
      ensures samples == []
    {
      samples := [];
    }

    /** The capture callback: append the delivered samples, then drain the
      * excess from the front. */
    method Append(data: seq<real>, limit: nat)
      modifies this
      ensures samples == Newest(old(samples) + data, limit)
      ensures |samples| <= limit || samples == old(samples) + data
    {
      samples := samples + data;
      if |samples| > limit {
        var excess := |samples| - limit;
        samples := samples[excess..];
      }
    }

    /** Take every sample out, leaving the buffer empty. */
    method Drain() returns (taken: seq<real>)
      modifies this
      ensures taken == old(samples) && samples == []
    {
      taken := samples;
      samples := [];
    }
  }

  datatype AudioStats = AudioStats(
    isRecording: bool,
    isPlaying: bool,
    inputBufferSize: nat,
    outputBufferSize: nat,
    inputDeviceAvailable: bool,
    outputDeviceAvailable: bool)

  class Processor {
    var inputDevice: Option<InputDevice>
    var outputDeviceAvailable: bool
    /** The open capture stream, by the configuration it was opened with. */
    var inputStream: Option<InputConfig>
    var isRecording: bool
    var isPlaying: bool
    /** Whether the text-to-speech engine initialised. */
    var ttsReady: bool
    var voiceSettings: VoiceSettings
    const router: Router
    const inputBuffer: SampleBuffer
    const outputBuffer: SampleBuffer

    /** Recording means a capture stream is open, and only float streams
      * are ever opened. */
    predicate Valid()
      reads this
    {
      inputBuffer != outputBuffer
      && (isRecording <==> inputStream.Some?)
      && (inputStream.Some? ==> inputStream.value.sampleFormat == "F32")
    }

    /** `AudioProcessor::new` with the devices the host reports. */
    constructor(inputDevice: Option<InputDevice>, outputDeviceAvailable: bool, ttsReady: bool)
      ensures Valid() && fresh(router) && fresh(inputBuffer) && fresh(outputBuffer)
      ensures this.inputDevice == inputDevice && this.outputDeviceAvailable == outputDeviceAvailable
      ensures this.ttsReady == ttsReady && voiceSettings == DefaultVoice
      ensures !isRecording && !isPlaying && inputBuffer.samples == [] && outputBuffer.samples == []
      ensures !router.deviceToAgent && !router.agentToDevice && !router.loopbackEnabled
    {
      this.inputDevice := inputDevice;
      this.outputDeviceAvailable := outputDeviceAvailable;
      inputStream := None;
      isRecording := false;
      isPlaying := false;
      this.ttsReady := ttsReady;
      voiceSettings := DefaultVoice;
      router := new Router();
      inputBuffer := new SampleBuffer();
      outputBuffer := new SampleBuffer();
    }

    /** `start_recording`: already recording is a no-op; otherwise open a
      * float capture stream on the input device. `build` and `play` are
      * what building and starting the stream report. */
    method StartRecording(build: Result<(), string>, play: Result<(), string>) returns (r: XResult<()>)
      modifies this`inputStream, this`isRecording
      requires Valid()
      ensures Valid()
      ensures old(isRecording) ==> r.Ok? && inputStream == old(inputStream) && isRecording
      ensures !old(isRecording) && inputDevice.None? ==> r == Err("No input device available") && !isRecording
      ensures !old(isRecording) && inputDevice.Some? ==>
                (r.Ok? <==> inputDevice.value.defaultConfig.Ok?
                            && inputDevice.value.defaultConfig.value.sampleFormat == "F32"
                            && build.Ok? && play.Ok?)
      ensures !old(isRecording) && r.Ok? ==> isRecording && inputStream == Some(inputDevice.value.defaultConfig.value)
      ensures r.Err? ==> isRecording == old(isRecording) && inputStream == old(inputStream)
    {
      if isRecording {
        return Ok(());
      }
      if inputDevice.None? {
        return Err("No input device available");
      }
      var config := inputDevice.value.defaultConfig;
      if config.Err? {
        return Err(config.error);
      }
      if config.value.sampleFormat != "F32" {
        return Err("Unsupported sample format: " + config.value.sampleFormat);
      }
      if build.Err? {
        return Err(build.error);
      }
      if play.Err? {
        return Err(play.error);
      }
      inputStream := Some(config.value);
      isRecording := true;
      r := Ok(());
    }

    /** `stop_recording`: a no-op when not recording; otherwise the stream
      * is dropped. */
    method StopRecording() returns (r: XResult<()>)
      modifies this`inputStream, this`isRecording
      requires Valid()
      ensures Valid() && r.Ok? && !isRecording && inputStream.None?
      ensures !old(isRecording) ==> inputStream == old(inputStream)
    {
      if !isRecording {
        return Ok(());
      }
      inputStream := None;
      isRecording := false;
      r := Ok(());
    }

    /** One delivery of the open capture stream's callback. */
    method DeliverInput(data: seq<real>)
      modifies inputBuffer
      requires Valid() && inputStream.Some?
      ensures Valid()
      ensures inputBuffer.samples == Newest(old(inputBuffer.samples) + data, MaxSamples(inputStream.value))
      ensures |inputBuffer.samples| <= MaxSamples(inputStream.value) || inputBuffer.samples == old(inputBuffer.samples) + data
    {
      inputBuffer.Append(data, MaxSamples(inputStream.value));
    }

    /** `listen_and_transcribe`: take everything captured so far and
      * transcribe it. */
    method ListenAndTranscribe() returns (text: string)
      modifies inputBuffer
      requires Valid()
      ensures Valid() && inputBuffer.samples == []
      ensures old(inputBuffer.samples) == [] ==> text == NothingCaptured
      ensures old(inputBuffer.samples) != [] ==> text == Transcribe(old(inputBuffer.samples))
    {
      var data := inputBuffer.Drain();
      if data == [] {
        return NothingCaptured;
      }
      text := Transcribe(data);
    }

    /** `speak` through the speech engine; `outcome` is what the engine
      * answers for the text. */
    function Speak(text: string, outcome: Result<(), string>): (r: XResult<()>)
      reads this`ttsReady
      ensures !ttsReady ==> r == Err("TTS engine not initialized")
      ensures ttsReady ==> (r.Ok? <==> outcome.Ok?)
      ensures ttsReady && outcome.Err? ==> r == Err("TTS failed: " + outcome.error)
    {
      if !ttsReady then Err("TTS engine not initialized")
      else if outcome.Err? then Err("TTS failed: " + outcome.error)
      else Ok(())
    }

    /** `setup_audio_loopback`: both directions routed. */
    method SetupAudioLoopback(deviceId: string) returns (r: XResult<()>)
      modifies router
      ensures r.Ok? && router.deviceToAgent && router.agentToDevice && router.loopbackEnabled
    {
      router.EnableLoopback();
      r := Ok(());
    }

    /** `get_audio_stats` */
    function GetAudioStats(): (s: AudioStats)
      reads this, inputBuffer, outputBuffer
      ensures s.isRecording == isRecording && s.isPlaying == isPlaying
      ensures s.inputBufferSize == |inputBuffer.samples| && s.outputBufferSize == |outputBuffer.samples|
      ensures s.inputDeviceAvailable <==> inputDevice.Some?
      ensures s.outputDeviceAvailable == outputDeviceAvailable
    {
      AudioStats(isRecording, isPlaying, |inputBuffer.samples|, |outputBuffer.samples|,
                 inputDevice.Some?, outputDeviceAvailable)
    }
  }

  /** The buffer keeps at most five seconds of the stream and, once it is
    * full, exactly the newest five seconds. */
  lemma NewestBound(s: seq<real>, data: seq<real>, limit: nat)
    ensures |Newest(s + data, limit)| <= limit || Newest(s + data, limit) == s + data
    ensures |s + data| >= limit ==> Newest(s + data, limit) == (s + data)[|s + data| - limit..]
    ensures |data| >= limit ==> Newest(s + data, limit) == data[|data| - limit..]
  {
    if |data| >= limit {
      assert (s + data)[|s + data| - limit..] == data[|data| - limit..];
    }
  }
}
