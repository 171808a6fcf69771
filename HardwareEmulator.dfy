// The hardware emulator (kmobile-desktop/src/hardware_emulator.rs): a map
// from device id to the emulated hardware state of that device. Attaching
// installs a documented default state; audio routing and network conditions
// are replaced in place for attached devices only; sensor injection is a
// dispatch on a closed set of sensor names that never touches the state.
//
// Sensor readings, battery level and network figures are floating point in
// the source; here they are reals that are only stored and compared.

module HardwareEmulator {
  import opened Common

  datatype SensorState = SensorState(enabled: bool, currentValue: Json, updateFrequency: real, noiseLevel: real)

  datatype AudioSource = Microphone | TtsEngine | SourceFile(path: string) | Synthetic
  datatype AudioDestination = Speaker | SttEngine | DestinationFile(path: string) | Agent

  datatype AudioProcessingConfig = AudioProcessingConfig(
    noiseReduction: bool,
    echoCancellation: bool,
    voiceEnhancement: bool,
    spatialAudio: bool)

  datatype AudioRouting = AudioRouting(
    inputSource: AudioSource,
    outputDestination: AudioDestination,
    ttsEnabled: bool,
    sttEnabled: bool,
    audioProcessing: AudioProcessingConfig)

  datatype NetworkType = Wifi | Cellular4G | Cellular5G | Ethernet | Offline

  datatype NetworkConditions = NetworkConditions(
    connectionType: NetworkType,
    bandwidthMbps: real,
    latencyMs: real,
    packetLossPercent: real,
    jitterMs: real)

  datatype ThermalState = Normal | SlightlyWarm | Warm | Hot | Critical

  datatype DeviceHardwareState = DeviceHardwareState(
    deviceId: string,
    sensors: map<string, SensorState>,
    audioRouting: AudioRouting,
    networkConditions: NetworkConditions,
    batteryLevel: real,
    thermalState: ThermalState)

  // ---------------------------------------------------------------------
  // Defaults

  /** `AudioProcessingConfig::default()` */
  const DefaultAudioProcessing := AudioProcessingConfig(
    noiseReduction := true, echoCancellation := true, voiceEnhancement := false, spatialAudio := false)

  /** `AudioRouting::default()`: microphone to speaker, no TTS or STT. */
  const DefaultAudioRouting := AudioRouting(Microphone, Speaker, false, false, DefaultAudioProcessing)

  /** `NetworkConditions::default()`: 100 Mbps Wi-Fi, 20 ms latency, no loss, 1 ms jitter. */
  const DefaultNetworkConditions := NetworkConditions(Wifi, 100.0, 20.0, 0.0, 1.0)

  const SensorNames: set<string> := {"gps", "accelerometer", "gyroscope", "magnetometer", "proximity", "light"}

  function Xyz(x: real, y: real, z: real): Json
  {
    JObject(map["x" := JNumber(x), "y" := JNumber(y), "z" := JNumber(z)])
  }

  /** The record a sensor starts with when a device is attached. */
  function DefaultSensorState(name: string): SensorState
    requires name in SensorNames
  {
    if name == "gps" then
      SensorState(true, JObject(map["latitude" := JNumber(37.7749), "longitude" := JNumber(-122.4194),
                                    "altitude" := JNumber(52.0), "accuracy" := JNumber(5.0)]), 1.0, 0.1)
    else if name == "accelerometer" then SensorState(true, Xyz(0.0, 0.0, -9.8), 50.0, 0.01)
    else if name == "gyroscope" then SensorState(true, Xyz(0.0, 0.0, 0.0), 50.0, 0.005)
    else if name == "magnetometer" then SensorState(true, Xyz(23.1, -45.2, 12.7), 10.0, 0.1)
    else if name == "proximity" then
      SensorState(true, JObject(map["distance" := JNumber(5.0), "near" := JBool(false)]), 5.0, 0.05)
    else SensorState(true, JObject(map["lux" := JNumber(300.0)]), 2.0, 10.0)
  }

  /** The sensor table every attached device starts with. */
  function DefaultSensors(): (m: map<string, SensorState>)
    ensures m.Keys == SensorNames
    ensures forall name | name in m :: m[name] == DefaultSensorState(name) && m[name].enabled
  {
    map name | name in SensorNames :: DefaultSensorState(name)
  }

  /** The default table has six distinct sensors. */
  lemma DefaultSensorCount()
    ensures |DefaultSensors()| == 6
  {
    var names := ["gps", "accelerometer", "gyroscope", "magnetometer", "proximity", "light"];
    assert SensorNames == set n | n in names;
    assert names[0] != names[1] && names[0] != names[2] && names[0] != names[3] && names[0] != names[4] && names[0] != names[5];
    assert SensorNames == {"accelerometer", "gyroscope", "magnetometer", "proximity", "light"} + {"gps"};
    assert |{"accelerometer", "gyroscope", "magnetometer", "proximity", "light"}| == 5;
  }

  /** The documented update rates (Hz) and starting readings. */
  lemma DefaultSensorsAsDocumented()
    ensures DefaultSensors()["gps"].updateFrequency == 1.0
    ensures DefaultSensors()["accelerometer"].updateFrequency == 50.0
    ensures DefaultSensors()["gyroscope"].updateFrequency == 50.0
    ensures DefaultSensors()["magnetometer"].updateFrequency == 10.0
    ensures DefaultSensors()["proximity"].updateFrequency == 5.0
    ensures DefaultSensors()["light"].updateFrequency == 2.0
    ensures DefaultSensors()["accelerometer"].currentValue == Xyz(0.0, 0.0, -9.8)
    ensures DefaultSensors()["gps"].currentValue.fields["latitude"] == JNumber(37.7749)
    ensures DefaultSensors()["gps"].currentValue.fields["longitude"] == JNumber(-122.4194)
  {
  }

  /** `initialize_sensors`: build the table by six successive inserts. */
  method InitializeSensors() returns (sensors: map<string, SensorState>)
    ensures sensors == DefaultSensors()
  {
    sensors := map[];
    sensors := sensors["gps" := DefaultSensorState("gps")];
    sensors := sensors["accelerometer" := DefaultSensorState("accelerometer")];
    sensors := sensors["gyroscope" := DefaultSensorState("gyroscope")];
    sensors := sensors["magnetometer" := DefaultSensorState("magnetometer")];
    sensors := sensors["proximity" := DefaultSensorState("proximity")];
    sensors := sensors["light" := DefaultSensorState("light")];
  }

  /** The state `attach_to_device` installs: the default sensors, routing and
    * network conditions, 85% battery and a normal thermal state. */
  function DefaultState(id: string): (st: DeviceHardwareState)
    ensures st.deviceId == id && st.sensors.Keys == SensorNames
    ensures st.audioRouting == DefaultAudioRouting && st.networkConditions == DefaultNetworkConditions
    ensures st.batteryLevel == 85.0 && st.thermalState == Normal
  {
    DeviceHardwareState(id, DefaultSensors(), DefaultAudioRouting, DefaultNetworkConditions, 85.0, Normal)
  }

  /** The simulators `simulate_sensor_input` can hand data to. */
  datatype SensorSimulator = GpsSim | AccelerometerSim | GyroscopeSim | MagnetometerSim | ProximitySim | LightSim

  /** The simulator a sensor name is dispatched to; an unknown name only
    * produces a warning. */
  function SimulatorFor(sensorType: string): (r: Option<SensorSimulator>)
    ensures r.Some? <==> sensorType in SensorNames
  {
    if sensorType == "gps" then Some(GpsSim)
    else if sensorType == "accelerometer" then Some(AccelerometerSim)
    else if sensorType == "gyroscope" then Some(GyroscopeSim)
    else if sensorType == "magnetometer" then Some(MagnetometerSim)
    else if sensorType == "proximity" then Some(ProximitySim)
    else if sensorType == "light" then Some(LightSim)
    else None
  }

  /** The names injection accepts are exactly the sensors an attached device has. */
  lemma InjectableSensorsAreDefaultSensors(name: string)
    ensures SimulatorFor(name).Some? <==> name in DefaultState("").sensors
  {
  }

  /** Which audio pipeline `start_audio_routing` configures for a routing. */
  datatype AudioPipeline = TtsToSpeaker | MicrophoneToStt | TtsToStt | CustomRouting

  function PipelineFor(config: AudioRouting): (p: AudioPipeline)
    ensures p == TtsToSpeaker <==> config.inputSource == TtsEngine && config.outputDestination == Speaker
    ensures p == MicrophoneToStt <==> config.inputSource == Microphone && config.outputDestination == SttEngine
    ensures p == TtsToStt <==> config.inputSource == TtsEngine && config.outputDestination == SttEngine
  {
    match (config.inputSource, config.outputDestination)
    case (TtsEngine, Speaker) => TtsToSpeaker
    case (Microphone, SttEngine) => MicrophoneToStt
    case (TtsEngine, SttEngine) => TtsToStt
    case _ => CustomRouting
  }

  class Emulator {
    var connectedDevices: map<string, DeviceHardwareState>

    /** Every state is keyed by its own id and keeps the sensor table, battery
      * level and thermal state it was attached with: no operation changes them. */
    predicate Valid()
      reads this
    {
      forall id | id in connectedDevices ::
        && connectedDevices[id].deviceId == id
        && connectedDevices[id].sensors == DefaultSensors()
        && connectedDevices[id].batteryLevel == 85.0
        && connectedDevices[id].thermalState == Normal
    }

    /** `HardwareEmulator::new` */
    constructor()
      ensures Valid() && connectedDevices == map[]
    {
      connectedDevices := map[];
    }

    /** `attach_to_device`: (re)install the default state, discarding whatever
      * an earlier attachment of the same id had accumulated. */
    method AttachToDevice(id: string)
      requires Valid()
      modifies this
      ensures Valid()
      ensures connectedDevices == old(connectedDevices)[id := DefaultState(id)]
    {
      var sensors := InitializeSensors();
      var state := DeviceHardwareState(id, sensors, DefaultAudioRouting, DefaultNetworkConditions, 85.0, Normal);
      connectedDevices := connectedDevices[id := state];
    }

    /** `simulate_sensor_input`: dispatch on the sensor name. It never fails
      * and, taking `&self`, never changes any state. */
    method SimulateSensorInput(id: string, sensorType: string, data: Json)
      returns (r: Result<Option<SensorSimulator>, string>)
      ensures r.Ok? && (r.value.Some? <==> sensorType in SensorNames)
      ensures r.value == SimulatorFor(sensorType)
    {
      r := Ok(SimulatorFor(sensorType));
    }

    /** `start_audio_routing`: store the routing for an attached device (an
      * unknown id is left alone) and configure the matching pipeline. */
    method StartAudioRouting(id: string, config: AudioRouting) returns (r: Result<AudioPipeline, string>)
      requires Valid()
      modifies this
      ensures Valid()
      ensures r == Ok(PipelineFor(config))
      ensures id in old(connectedDevices) ==>
                connectedDevices == old(connectedDevices)[id := old(connectedDevices)[id].(audioRouting := config)]
      ensures id !in old(connectedDevices) ==> connectedDevices == old(connectedDevices)
    {
      if id in connectedDevices {
        connectedDevices := connectedDevices[id := connectedDevices[id].(audioRouting := config)];
      }
      r := Ok(PipelineFor(config));
    }

    /** `simulate_network_conditions`: store the conditions for an attached
      * device; an unknown id is left alone and still succeeds. */
    method SimulateNetworkConditions(id: string, conditions: NetworkConditions) returns (r: Result<(), string>)
      requires Valid()
      modifies this
      ensures Valid()
      ensures r.Ok?
      ensures id in old(connectedDevices) ==>
                connectedDevices == old(connectedDevices)[id := old(connectedDevices)[id].(networkConditions := conditions)]
      ensures id !in old(connectedDevices) ==> connectedDevices == old(connectedDevices)
    {
      if id in connectedDevices {
        connectedDevices := connectedDevices[id := connectedDevices[id].(networkConditions := conditions)];
      }
      r := Ok(());
    }

    /** `get_device_state`: the stored state, nothing for an id never attached. */
    function GetDeviceState(id: string): (r: Option<DeviceHardwareState>)
      reads this
      ensures r.Some? <==> id in connectedDevices
      ensures r.Some? && Valid() ==> r.value.deviceId == id && r.value.sensors.Keys == SensorNames
    {
      if id in connectedDevices then Some(connectedDevices[id]) else None
    }
  }
}
