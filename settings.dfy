/**
 * The call settings: the defaults the page starts with, the merge of the
 * document the server returns for `GET /settings`, and the rule that restores
 * the saved microphone only when an audio input with that id is present.
 */
module CallSettings {
  import opened Wrappers

  const DefaultInstructions := "日本語で親しみやすく話してください。"
  const DefaultGreeting := "こんにちは！チャッピーです。何かお手伝いできることはありますか？"

  /** `currentSettings`. An empty `microphoneId` means the system default device. */
  datatype Settings = Settings(
    instructions: string,
    initialGreeting: string,
    voice: string,
    model: string,
    microphoneId: string)

  const Defaults := Settings(DefaultInstructions, DefaultGreeting, "verse", "gpt-realtime-2025-08-28", "")

  /** The JSON keys of a settings document. */
  const Keys: set<string> := {"instructions", "initialGreeting", "voice", "model", "microphoneId"}

  /** A settings document as stored by the server, key by key. */
  type Document = map<string, string>

  function Field(s: Settings, key: string): string
    requires key in Keys
  {
    match key
    case "instructions" => s.instructions
    case "initialGreeting" => s.initialGreeting
    case "voice" => s.voice
    case "model" => s.model
    case _ => s.microphoneId
  }

  function Pick(saved: Document, key: string, current: string): string {
    if key in saved then saved[key] else current
  }

  /** `{ ...currentSettings, ...savedSettings }`: every saved key overrides, every other key keeps its value. */
  function Merge(current: Settings, saved: Document): (r: Settings)
    ensures forall k :: k in Keys ==> Field(r, k) == if k in saved then saved[k] else Field(current, k)
  {
    Settings(
      Pick(saved, "instructions", current.instructions),
      Pick(saved, "initialGreeting", current.initialGreeting),
      Pick(saved, "voice", current.voice),
      Pick(saved, "model", current.model),
      Pick(saved, "microphoneId", current.microphoneId))
  }

  /** `JSON.stringify(currentSettings)` as the document `saveSettings` posts. */
  function ToDocument(s: Settings): (d: Document)
    ensures d.Keys == Keys
    ensures forall k :: k in Keys ==> d[k] == Field(s, k)
  {
    map["instructions" := s.instructions, "initialGreeting" := s.initialGreeting, "voice" := s.voice,
        "model" := s.model, "microphoneId" := s.microphoneId]
  }

  /** Loading what was saved restores exactly the saved settings, whatever was current. */
  lemma SavedSettingsRoundTrip(current: Settings, saved: Settings)
    ensures Merge(current, ToDocument(saved)) == saved
  {
    var r := Merge(current, ToDocument(saved));
    assert Field(r, "instructions") == saved.instructions;
    assert Field(r, "initialGreeting") == saved.initialGreeting;
    assert Field(r, "voice") == saved.voice;
    assert Field(r, "model") == saved.model;
    assert Field(r, "microphoneId") == saved.microphoneId;
  }

  /** An empty document (nothing saved yet) keeps the current settings. */
  lemma EmptyDocumentKeepsSettings(current: Settings)
    ensures Merge(current, map[]) == current
  {
  }

  /** The greeting actually requested: `initialGreeting || <default greeting>`. */
  function EffectiveGreeting(s: Settings): (g: string)
    ensures g != ""
    ensures s.initialGreeting != "" ==> g == s.initialGreeting
    ensures s.initialGreeting == "" ==> g == DefaultGreeting
  {
    if s.initialGreeting != "" then s.initialGreeting else DefaultGreeting
  }

  /** An entry of `enumerateDevices()`. */
  datatype Device = Device(kind: string, deviceId: string)

  const AudioInput := "audioinput"

  /** `devices.filter(device => device.kind === 'audioinput')`. */
  function AudioInputs(devices: seq<Device>): (r: seq<Device>)
    ensures forall d :: d in r <==> d in devices && d.kind == AudioInput
    decreases |devices|
  {
    if |devices| == 0 then []
    else (if devices[0].kind == AudioInput then [devices[0]] else []) + AudioInputs(devices[1..])
  }

  function DeviceIds(ds: seq<Device>): (ids: seq<string>)
    ensures |ids| == |ds|
    ensures forall i :: 0 <= i < |ds| ==> ids[i] == ds[i].deviceId
    decreases |ds|
  {
    if |ds| == 0 then [] else [ds[0].deviceId] + DeviceIds(ds[1..])
  }

  /** The values of the microphone menu: the default entry, then each audio input. */
  function MicOptions(devices: seq<Device>): seq<string> {
    [""] + DeviceIds(AudioInputs(devices))
  }

  /** `audioInputs.some(d => d.deviceId === id)`. */
  function AnyHasId(ds: seq<Device>, id: string): (b: bool)
    ensures b <==> exists i :: 0 <= i < |ds| && ds[i].deviceId == id
    decreases |ds|
  {
    if |ds| == 0 then false else ds[0].deviceId == id || AnyHasId(ds[1..], id)
  }

  /**
   * The menu's value after `getMicrophones` rebuilt it: the saved id when it
   * is set and some audio input carries it, the default entry otherwise.
   */
  function RestoredMicrophone(devices: seq<Device>, microphoneId: string): (sel: string)
    ensures sel in MicOptions(devices)
    ensures sel == microphoneId <==>
              microphoneId == "" || exists d :: d in devices && d.kind == AudioInput && d.deviceId == microphoneId
    ensures sel != microphoneId ==> sel == ""
  {
    var inputs := AudioInputs(devices);
    InputWithId(devices, microphoneId);
    if microphoneId != "" && AnyHasId(inputs, microphoneId) then
      IdListed(inputs, microphoneId);
      microphoneId
    else
      ""
  }

  lemma InputWithId(devices: seq<Device>, id: string)
    ensures AnyHasId(AudioInputs(devices), id) <==>
              exists d :: d in devices && d.kind == AudioInput && d.deviceId == id
  {
    var inputs := AudioInputs(devices);
    if exists d :: d in devices && d.kind == AudioInput && d.deviceId == id {
      var d :| d in devices && d.kind == AudioInput && d.deviceId == id;
      assert d in inputs;
      var i :| 0 <= i < |inputs| && inputs[i] == d;
    }
    if AnyHasId(inputs, id) {
      var i :| 0 <= i < |inputs| && inputs[i].deviceId == id;
      assert inputs[i] in inputs;
    }
  }

  lemma IdListed(inputs: seq<Device>, id: string)
    requires exists i :: 0 <= i < |inputs| && inputs[i].deviceId == id
    ensures id in DeviceIds(inputs)
  {
    var i :| 0 <= i < |inputs| && inputs[i].deviceId == id;
    assert DeviceIds(inputs)[i] == id;
  }
}
