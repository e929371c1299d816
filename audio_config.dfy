/**
 * The audio capture settings panel (`AudioConfig` component): eight capture
 * settings, seeded from platform probes, overlaid once from an attached capture
 * client's configuration, pushed live to that client for the two denoiser fields
 * while it records, gated per control, and exported on demand.
 */
module AudioSettings {
  import opened Wrappers

  /** The denoiser's algorithm family (`AIDenoiserProcessorMode`). */
  datatype DenoiseMode = NSNG | StationaryNS

  /** The denoiser's aggressiveness (`AIDenoiserProcessorLevel`). */
  datatype DenoiseLevel = Soft | Aggressive

  /** The eight values `getSettings` exports. */
  datatype Settings = Settings(
    denoiseMode: DenoiseMode,
    denoiseLevel: DenoiseLevel,
    noiseSuppression: bool,
    echoCancellation: bool,
    autoGainControl: bool,
    debug: bool,
    audioMutedDefault: bool,
    isHuaweiMobile: bool)

  /** `config.aiDenoisingConfig` of a capture client: each field may be left out. */
  datatype DenoisingConfig = DenoisingConfig(mode: Option<DenoiseMode>, level: Option<DenoiseLevel>)

  /** `config.audioCaptureConfig` of a capture client: each field may be `undefined`. */
  datatype CaptureConfig = CaptureConfig(
    noiseSuppression: Option<bool>,
    echoCancellation: Option<bool>,
    autoGainControl: Option<bool>)

  /** A capture client's `config`; either part may be missing. */
  datatype ClientConfig = ClientConfig(
    aiDenoisingConfig: Option<DenoisingConfig>,
    audioCaptureConfig: Option<CaptureConfig>)

  /** A configuration that supplies nothing. */
  const NoConfig := ClientConfig(None, None)

  /** What `recorder.getStatus()` reports while capturing. */
  const Recording := "recording"

  // Each `SuppliedX` reads one field through the optional part that holds it,
  // as the destructuring of `... || {}` does.

  function SuppliedMode(cfg: ClientConfig): Option<DenoiseMode> {
    if cfg.aiDenoisingConfig.Some? then cfg.aiDenoisingConfig.value.mode else None
  }

  function SuppliedLevel(cfg: ClientConfig): Option<DenoiseLevel> {
    if cfg.aiDenoisingConfig.Some? then cfg.aiDenoisingConfig.value.level else None
  }

  function SuppliedNoiseSuppression(cfg: ClientConfig): Option<bool> {
    if cfg.audioCaptureConfig.Some? then cfg.audioCaptureConfig.value.noiseSuppression else None
  }

  function SuppliedEchoCancellation(cfg: ClientConfig): Option<bool> {
    if cfg.audioCaptureConfig.Some? then cfg.audioCaptureConfig.value.echoCancellation else None
  }

  function SuppliedAutoGainControl(cfg: ClientConfig): Option<bool> {
    if cfg.audioCaptureConfig.Some? then cfg.audioCaptureConfig.value.autoGainControl else None
  }

  /** The supplied value when there is one, else the current one. */
  function Pick<T>(supplied: Option<T>, current: T): T {
    if supplied.Some? then supplied.value else current
  }

  /**
   * The settings after a client with configuration `cfg` is attached to a panel
   * holding `s`: each of the five fields the configuration can carry (mode,
   * level, noise suppression, echo cancellation, AGC) replaces the local one
   * when supplied (an explicit `false` included) and is kept otherwise; debug,
   * default mute and Huawei mobile are never taken from the client.
   */
  function Overlay(s: Settings, cfg: ClientConfig): (r: Settings)
    ensures r.debug == s.debug && r.audioMutedDefault == s.audioMutedDefault
    ensures r.isHuaweiMobile == s.isHuaweiMobile
    ensures SuppliedMode(cfg).Some? ==> r.denoiseMode == SuppliedMode(cfg).value
    ensures SuppliedMode(cfg).None? ==> r.denoiseMode == s.denoiseMode
    ensures SuppliedLevel(cfg).Some? ==> r.denoiseLevel == SuppliedLevel(cfg).value
    ensures SuppliedLevel(cfg).None? ==> r.denoiseLevel == s.denoiseLevel
    ensures SuppliedNoiseSuppression(cfg).Some? ==> r.noiseSuppression == SuppliedNoiseSuppression(cfg).value
    ensures SuppliedNoiseSuppression(cfg).None? ==> r.noiseSuppression == s.noiseSuppression
    ensures SuppliedEchoCancellation(cfg).Some? ==> r.echoCancellation == SuppliedEchoCancellation(cfg).value
    ensures SuppliedEchoCancellation(cfg).None? ==> r.echoCancellation == s.echoCancellation
    ensures SuppliedAutoGainControl(cfg).Some? ==> r.autoGainControl == SuppliedAutoGainControl(cfg).value
    ensures SuppliedAutoGainControl(cfg).None? ==> r.autoGainControl == s.autoGainControl
  {
    s.(denoiseMode := Pick(SuppliedMode(cfg), s.denoiseMode),
       denoiseLevel := Pick(SuppliedLevel(cfg), s.denoiseLevel),
       noiseSuppression := Pick(SuppliedNoiseSuppression(cfg), s.noiseSuppression),
       echoCancellation := Pick(SuppliedEchoCancellation(cfg), s.echoCancellation),
       autoGainControl := Pick(SuppliedAutoGainControl(cfg), s.autoGainControl))
  }

  /** Overlaying the same configuration twice in a row gives the same settings as once. */
  lemma OverlayIdempotent(s: Settings, cfg: ClientConfig)
    ensures Overlay(Overlay(s, cfg), cfg) == Overlay(s, cfg)
  {
  }

  /** A configuration that supplies nothing leaves the settings as they are. */
  lemma OverlayNothing(s: Settings)
    ensures Overlay(s, NoConfig) == s
  {
  }

  /** The later option when it is present, else the earlier one. */
  function Latest<T>(earlier: Option<T>, later: Option<T>): Option<T> {
    if later.Some? then later else earlier
  }

  /** The configuration supplying, field by field, `b`'s value where `b` has one and `a`'s otherwise. */
  function Combine(a: ClientConfig, b: ClientConfig): ClientConfig {
    ClientConfig(
      Some(DenoisingConfig(
        Latest(SuppliedMode(a), SuppliedMode(b)),
        Latest(SuppliedLevel(a), SuppliedLevel(b)))),
      Some(CaptureConfig(
        Latest(SuppliedNoiseSuppression(a), SuppliedNoiseSuppression(b)),
        Latest(SuppliedEchoCancellation(a), SuppliedEchoCancellation(b)),
        Latest(SuppliedAutoGainControl(a), SuppliedAutoGainControl(b)))))
  }

  /** Attaching `a` and then `b` is the same as attaching one client whose configuration is `Combine(a, b)`. */
  lemma OverlayComposes(s: Settings, a: ClientConfig, b: ClientConfig)
    ensures Overlay(Overlay(s, a), b) == Overlay(s, Combine(a, b))
  {
  }

  /** The settings after the clients with configurations `cfgs` were attached one after another. */
  function OverlayAll(s: Settings, cfgs: seq<ClientConfig>): Settings
    decreases |cfgs|
  {
    if cfgs == [] then s else Overlay(OverlayAll(s, cfgs[..|cfgs| - 1]), cfgs[|cfgs| - 1])
  }

  /** Field by field, the value from the most recent configuration that supplied one. */
  function CombineAll(cfgs: seq<ClientConfig>): ClientConfig
    decreases |cfgs|
  {
    if cfgs == [] then NoConfig else Combine(CombineAll(cfgs[..|cfgs| - 1]), cfgs[|cfgs| - 1])
  }

  /**
   * Replacing the client several times is one overlay of the combined
   * configurations: each field holds the value of the most recent client that
   * supplied it, or the value from before the first client if none did. The
   * panel is not reset to its defaults when a client is replaced.
   */
  lemma {:induction false} OverlayAllIsOneOverlay(s: Settings, cfgs: seq<ClientConfig>)
    ensures OverlayAll(s, cfgs) == Overlay(s, CombineAll(cfgs))
    decreases |cfgs|
  {
    if cfgs == [] {
      OverlayNothing(s);
    } else {
      var init, last := cfgs[..|cfgs| - 1], cfgs[|cfgs| - 1];
      OverlayAllIsOneOverlay(s, init);
      OverlayComposes(s, CombineAll(init), last);
    }
  }

  /**
   * A replacing client that supplies nothing keeps the echo-cancellation value
   * the previous client supplied, instead of the default `true`.
   */
  lemma ReplacementKeepsEarlierClientValue(s: Settings)
    requires s.echoCancellation
    ensures var first := ClientConfig(None, Some(CaptureConfig(None, Some(false), None)));
            !OverlayAll(s, [first, NoConfig]).echoCancellation
  {
  }

  /** The concrete client classes the panel accepts. */
  datatype ClientKind = PcmRecorder | WsChatClient | WsTranscriptionClient

  /** A call the panel makes into the client. */
  datatype ClientCall = SetDenoiserMode(mode: DenoiseMode) | SetDenoiserLevel(level: DenoiseLevel)

  /**
   * A capture client as far as the panel sees it: its kind, its `config`, the
   * status its own `getStatus()` reports (a `PcmRecorder`) or that its
   * `recorder.getStatus()` reports (the other kinds), and the log of denoiser
   * calls it has received.
   */
  class CaptureClient {
    const kind: ClientKind
    const config: ClientConfig
    var status: string
    var recorderStatus: string
    var calls: seq<ClientCall>

    constructor (kind: ClientKind, config: ClientConfig, status: string, recorderStatus: string)
      ensures this.kind == kind && this.config == config
      ensures this.status == status && this.recorderStatus == recorderStatus
      ensures calls == []
    {
      this.kind := kind;
      this.config := config;
      this.status := status;
      this.recorderStatus := recorderStatus;
      calls := [];
    }

    /** The status the panel reads: the client's own for a `PcmRecorder`, its recorder's otherwise. */
    function CurrentStatus(): (st: string)
      reads this
      ensures kind == PcmRecorder ==> st == status
      ensures kind != PcmRecorder ==> st == recorderStatus
    {
      if kind == PcmRecorder then status else recorderStatus
    }

    /** `setDenoiserMode`: recorded, nothing else about the client changes. */
    method SetDenoiserMode(mode: DenoiseMode)
      modifies this`calls
      ensures calls == old(calls) + [ClientCall.SetDenoiserMode(mode)]
    {
      calls := calls + [ClientCall.SetDenoiserMode(mode)];
    }

    /** `setDenoiserLevel`: recorded, nothing else about the client changes. */
    method SetDenoiserLevel(level: DenoiseLevel)
      modifies this`calls
      ensures calls == old(calls) + [ClientCall.SetDenoiserLevel(level)]
    {
      calls := calls + [ClientCall.SetDenoiserLevel(level)];
    }
  }

  /** The controls the panel renders. */
  datatype Control =
    | DebugControl
    | DefaultMuteControl
    | HuaweiMobileControl
    | NoiseSuppressionControl
    | EchoCancellationControl
    | AutoGainControlControl
    | DenoiseModeControl
    | DenoiseLevelControl
  {
    /** The two radio groups of the denoiser. */
    predicate IsDenoiser() {
      this == DenoiseModeControl || this == DenoiseLevelControl
    }
  }

  /**
   * Whether a control is greyed out: the noise-suppression checkbox when the
   * denoiser is unsupported or capture is running, every other checkbox while
   * capture is running, and the two denoiser radio groups never.
   */
  function ControlDisabled(c: Control, denoiserSupported: bool, recording: bool): (d: bool)
    ensures c == NoiseSuppressionControl ==> (d <==> !denoiserSupported || recording)
    ensures c != NoiseSuppressionControl && !c.IsDenoiser() ==> (d <==> recording)
    ensures c.IsDenoiser() ==> !d
  {
    match c
    case NoiseSuppressionControl => !denoiserSupported || recording
    case DenoiseModeControl => false
    case DenoiseLevelControl => false
    case _ => recording
  }

  /** Whether a control is rendered at all: the denoiser radio groups only while noise suppression is off. */
  function ControlShown(c: Control, noiseSuppression: bool): (v: bool)
    ensures c.IsDenoiser() ==> (v <==> !noiseSuppression)
    ensures !c.IsDenoiser() ==> v
  {
    !c.IsDenoiser() || !noiseSuppression
  }

  /**
   * While capture runs, the controls a user can still operate are exactly the
   * denoiser's, and only while noise suppression is off; these are the two
   * settings the panel pushes live to the client.
   */
  lemma OnlyDenoiserOperableWhileRecording(c: Control, denoiserSupported: bool, noiseSuppression: bool)
    ensures ControlShown(c, noiseSuppression) && !ControlDisabled(c, denoiserSupported, true)
            <==> c.IsDenoiser() && !noiseSuppression
  {
  }

  /** The panel: the eight settings as component state, the denoiser probe, and the attached client. */
  class AudioConfig {
    const denoiserSupported: bool
    var denoiseMode: DenoiseMode
    var denoiseLevel: DenoiseLevel
    var noiseSuppression: bool
    var echoCancellation: bool
    var autoGainControl: bool
    var debug: bool
    var audioMutedDefault: bool
    var isHuaweiMobile: bool
    var client: CaptureClient?

    /** The current eight values as one record. */
    ghost function Snapshot(): Settings
      reads this
    {
      Settings(denoiseMode, denoiseLevel, noiseSuppression, echoCancellation,
               autoGainControl, debug, audioMutedDefault, isHuaweiMobile)
    }

    /** The initial state, from the three platform probes, with no client attached. */
    constructor (denoiserSupported: bool, isMobile: bool, isHarmonyOS: bool)
      ensures this.denoiserSupported == denoiserSupported && client == null
      ensures denoiseMode == NSNG && denoiseLevel == Soft
      ensures noiseSuppression == (!denoiserSupported || isMobile)
      ensures echoCancellation && autoGainControl
      ensures !debug && !audioMutedDefault
      ensures isHuaweiMobile == isHarmonyOS
    {
      this.denoiserSupported := denoiserSupported;
      denoiseMode := NSNG;
      denoiseLevel := Soft;
      noiseSuppression := !denoiserSupported || isMobile;
      echoCancellation := true;
      autoGainControl := true;
      debug := false;
      audioMutedDefault := false;
      isHuaweiMobile := isHarmonyOS;
      client := null;
    }

    /**
     * The client reference becomes `c`. The overlay effect depends on the
     * reference alone, so it runs only when `c` differs from the attached
     * client: then a present client's configuration is overlaid on the current
     * settings and an absent one changes no setting. The same reference again
     * changes nothing, even if the user has edited settings since.
     */
    method ClientChanged(c: CaptureClient?)
      modifies this
      ensures client == c
      ensures c == old(client) ==> Snapshot() == old(Snapshot())
      ensures c != old(client) && c == null ==> Snapshot() == old(Snapshot())
      ensures c != old(client) && c != null ==> Snapshot() == Overlay(old(Snapshot()), c.config)
    {
      if c == client {
        return;
      }
      client := c;
      if c == null {
        return;
      }
      var mode, level := SuppliedMode(c.config), SuppliedLevel(c.config);
      if mode.Some? {
        denoiseMode := mode.value;
      }
      if level.Some? {
        denoiseLevel := level.value;
      }
      var ns, ec, agc := SuppliedNoiseSuppression(c.config), SuppliedEchoCancellation(c.config), SuppliedAutoGainControl(c.config);
      if ns.Some? {
        noiseSuppression := ns.value;
      }
      if ec.Some? {
        echoCancellation := ec.value;
      }
      if agc.Some? {
        autoGainControl := agc.value;
      }
    }

    /** `getSettings`: the eight current values, untransformed. */
    method GetSettings() returns (s: Settings)
      ensures s.denoiseMode == denoiseMode && s.denoiseLevel == denoiseLevel
      ensures s.noiseSuppression == noiseSuppression && s.echoCancellation == echoCancellation
      ensures s.autoGainControl == autoGainControl && s.debug == debug
      ensures s.audioMutedDefault == audioMutedDefault && s.isHuaweiMobile == isHuaweiMobile
    {
      s := Settings(denoiseMode, denoiseLevel, noiseSuppression, echoCancellation,
                    autoGainControl, debug, audioMutedDefault, isHuaweiMobile);
    }

    /** `isRecording`: false with no client, else whether the status the client kind exposes is "recording". */
    function IsRecording(): (r: bool)
      reads this, client
      ensures client == null ==> !r
      ensures client != null && client.kind == PcmRecorder ==> (r <==> client.status == Recording)
      ensures client != null && client.kind != PcmRecorder ==> (r <==> client.recorderStatus == Recording)
    {
      client != null && client.CurrentStatus() == Recording
    }

    /** `disabled`, the gate of the noise-suppression checkbox. */
    function Disabled(): (d: bool)
      reads this, client
      ensures d == ControlDisabled(NoiseSuppressionControl, denoiserSupported, IsRecording())
    {
      !denoiserSupported || IsRecording()
    }

    /** Whether the user can operate control `c` now: rendered and not greyed out. */
    function Operable(c: Control): bool
      reads this, client
    {
      ControlShown(c, noiseSuppression) && !ControlDisabled(c, denoiserSupported, IsRecording())
    }

    /**
     * While the attached client records, the controls the user can operate on
     * this panel are exactly the shown denoiser radio groups.
     */
    lemma OperableWhileRecording(c: Control)
      requires IsRecording()
      ensures Operable(c) <==> c.IsDenoiser() && !noiseSuppression
    {
      OnlyDenoiserOperableWhileRecording(c, denoiserSupported, noiseSuppression);
    }

    /**
     * A denoise-mode selection: the local mode always becomes `value`; the
     * client receives `setDenoiserMode(value)` exactly once when it is present
     * and recording, and no call otherwise. Nothing else changes.
     */
    method HandleDenoiseModeChange(value: DenoiseMode)
      modifies this`denoiseMode, client
      ensures Snapshot() == old(Snapshot()).(denoiseMode := value)
      ensures client != null && old(IsRecording()) ==> client.calls == old(client.calls) + [SetDenoiserMode(value)]
      ensures client != null && !old(IsRecording()) ==> client.calls == old(client.calls)
      ensures client != null ==> client.status == old(client.status) && client.recorderStatus == old(client.recorderStatus)
    {
      var recording := IsRecording();
      denoiseMode := value;
      if client != null && recording {
        client.SetDenoiserMode(value);
      }
    }

    /**
     * A denoise-level selection: the local level always becomes `value`; the
     * client receives `setDenoiserLevel(value)` exactly once when it is present
     * and recording, and no call otherwise. Nothing else changes.
     */
    method HandleDenoiseLevelChange(value: DenoiseLevel)
      modifies this`denoiseLevel, client
      ensures Snapshot() == old(Snapshot()).(denoiseLevel := value)
      ensures client != null && old(IsRecording()) ==> client.calls == old(client.calls) + [SetDenoiserLevel(value)]
      ensures client != null && !old(IsRecording()) ==> client.calls == old(client.calls)
      ensures client != null ==> client.status == old(client.status) && client.recorderStatus == old(client.recorderStatus)
    {
      var recording := IsRecording();
      denoiseLevel := value;
      if client != null && recording {
        client.SetDenoiserLevel(value);
      }
    }

    // The checkbox handlers set their own field and nothing else.

    method SetDebug(checked: bool)
      modifies this`debug
      ensures Snapshot() == old(Snapshot()).(debug := checked)
    {
      debug := checked;
    }

    method SetAudioMutedDefault(checked: bool)
      modifies this`audioMutedDefault
      ensures Snapshot() == old(Snapshot()).(audioMutedDefault := checked)
    {
      audioMutedDefault := checked;
    }

    method SetIsHuaweiMobile(checked: bool)
      modifies this`isHuaweiMobile
      ensures Snapshot() == old(Snapshot()).(isHuaweiMobile := checked)
    {
      isHuaweiMobile := checked;
    }

    method SetNoiseSuppression(checked: bool)
      modifies this`noiseSuppression
      ensures Snapshot() == old(Snapshot()).(noiseSuppression := checked)
    {
      noiseSuppression := checked;
    }

    method SetEchoCancellation(checked: bool)
      modifies this`echoCancellation
      ensures Snapshot() == old(Snapshot()).(echoCancellation := checked)
    {
      echoCancellation := checked;
    }

    method SetAutoGainControl(checked: bool)
      modifies this`autoGainControl
      ensures Snapshot() == old(Snapshot()).(autoGainControl := checked)
    {
      autoGainControl := checked;
    }
  }

  /**
   * Turning noise suppression on and off again keeps the denoiser's mode and
   * level (and every other field, and the client), hides their controls in
   * between, and shows them again.
   */
  method NoiseSuppressionRoundTrip(panel: AudioConfig)
    modifies panel`noiseSuppression
    ensures panel.Snapshot() == old(panel.Snapshot()).(noiseSuppression := false)
    ensures ControlShown(DenoiseModeControl, panel.noiseSuppression)
    ensures ControlShown(DenoiseLevelControl, panel.noiseSuppression)
  {
    panel.SetNoiseSuppression(true);
    assert !ControlShown(DenoiseModeControl, panel.noiseSuppression);
    panel.SetNoiseSuppression(false);
  }
}
