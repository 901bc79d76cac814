/** The configuration `cfg_init` hands to the bus, from the settings it was
    asked for: the debugger switch settled against `--gui-mode`
    (cfg.c lines 739-741), the INTV2PC port numbers checked and looked up
    (lines 838-857), unset ECS and Intellivoice choices taken from the
    cartridge database (lines 1000-1011), and sound switched off when it
    fails to start (lines 1120-1125). The facts below follow each of these
    through to the windows on the bus. */
module Startup {
  import opened Options
  import opened Settings
  import opened PeriphBus
  import opened BusFacts

  /** The outcome of the normalisation: the settings the devices are built
      and registered from, or the port error that makes `cfg_init` exit. */
  datatype Boot = Booted(s: Setup) | Fatal(why: PortError)

  /** `raw` holds the settings as the options left them, `flags` the option
      flags, `known` the database entry of the game, if any, and `soundOk`
      whether `snd_init` succeeded. */
  function Normalise(raw: Setup, flags: Flags, known: Option<(int, int)>, soundOk: bool): (r: Boot)
    ensures r.Booted? <==> MapPorts(raw.i2pc0Port, raw.i2pc1Port).Ports?
    ensures r.Fatal? ==> r.why == MapPorts(raw.i2pc0Port, raw.i2pc1Port).why
    ensures r.Booted? ==> r.s.i2pc0Port in I2pcPorts && r.s.i2pc1Port in I2pcPorts
    ensures r.Booted? ==> r.s.debugging == (flags.debugging && !flags.guiMode)
    ensures r.Booted? ==> (r.s.ecsEnable, r.s.ivcEnable) == CartDefaults(raw.ecsEnable, raw.ivcEnable, known)
    ensures r.Booted? ==> r.s.audioRate == AudioRateAfter(raw.audioRate, soundOk)
    ensures r.Booted? ==> r.s.execType == raw.execType && r.s.cgc0 == raw.cgc0 && r.s.cgc1 == raw.cgc1 && r.s.rateCtl == raw.rateCtl
  {
    match MapPorts(raw.i2pc0Port, raw.i2pc1Port)
    case PortsRejected(why) => Fatal(why)
    case Ports(p0, p1) =>
      var (ecs, ivc) := CartDefaults(raw.ecsEnable, raw.ivcEnable, known);
      Booted(raw.(i2pc0Port := p0, i2pc1Port := p1,
                  ecsEnable := ecs, ivcEnable := ivc,
                  audioRate := AudioRateAfter(raw.audioRate, soundOk),
                  debugging := SettleDebugging(flags).debugging))
  }

  /** After a successful start every device of the machine on the bus was
      constructed, and every constructed device is on the bus, whenever the
      requested audio rate is not negative. */
  lemma BootedRegisteredWereBuilt(raw: Setup, flags: Flags, known: Option<(int, int)>, soundOk: bool, cart: seq<Descriptor>)
    requires CartOnly(cart) && raw.audioRate >= 0
    requires Normalise(raw, flags, known, soundOk).Booted?
    ensures var s := Normalise(raw, flags, known, soundOk).s;
      forall dev: Device :: !dev.Cart? ==> (Registers(Layout(s, cart), dev) <==> Built(s, dev))
  {
    var s := Normalise(raw, flags, known, soundOk).s;
    assert s.i2pc0Port >= 0;
    RegisteredWereBuilt(s, cart);
  }

  /** Sound that fails to start takes the `[Sound]` and Intellivoice
      windows off the bus. */
  lemma SoundFailureDropsWindows(raw: Setup, flags: Flags, known: Option<(int, int)>, cart: seq<Descriptor>)
    requires CartOnly(cart)
    requires Normalise(raw, flags, known, false).Booted?
    ensures var s := Normalise(raw, flags, known, false).s;
      !Registers(Layout(s, cart), Snd) && !Registers(Layout(s, cart), Ivoice)
  {
    var s := Normalise(raw, flags, known, false).s;
    assert s.audioRate == 0;
    IvoiceAndExec2Gating(s, cart);
  }

  /** In GUI mode the debugger is never on the bus. */
  lemma GuiModeHasNoDebugger(raw: Setup, flags: Flags, known: Option<(int, int)>, soundOk: bool, cart: seq<Descriptor>)
    requires CartOnly(cart) && flags.guiMode
    requires Normalise(raw, flags, known, soundOk).Booted?
    ensures !Registers(Layout(Normalise(raw, flags, known, soundOk).s, cart), Device.Debug)
  {
    var s := Normalise(raw, flags, known, soundOk).s;
    DebuggerIffDebugging(s, cart);
  }

  /** With ECS left on automatic, a game the database knows gets the ECS
      windows exactly when its entry asks for the ECS. */
  lemma DatabaseChoosesEcs(raw: Setup, flags: Flags, e: int, v: int, soundOk: bool, cart: seq<Descriptor>)
    requires CartOnly(cart) && raw.ecsEnable == -1
    requires Normalise(raw, flags, Some((e, v)), soundOk).Booted?
    ensures var s := Normalise(raw, flags, Some((e, v)), soundOk).s;
      Registers(Layout(s, cart), EcsRam) <==> e > 0
  {
    var s := Normalise(raw, flags, Some((e, v)), soundOk).s;
    assert s.ecsEnable == e;
    if e > 0 {
      EcsPresent(s, cart);
      assert EcsRam in EcsDevices - {I2pc1, Cgc1};
    } else {
      EcsGating(s, cart);
      assert EcsRam in EcsDevices;
    }
  }

  /** An ECS setting given on the command line is never overridden by the
      database, and without a database entry automatic means no ECS. */
  lemma UserEcsChoiceKept(raw: Setup, flags: Flags, known: Option<(int, int)>, soundOk: bool, cart: seq<Descriptor>)
    requires CartOnly(cart) && (raw.ecsEnable != -1 || known.None?)
    requires Normalise(raw, flags, known, soundOk).Booted?
    ensures var s := Normalise(raw, flags, known, soundOk).s;
      Registers(Layout(s, cart), EcsRam) <==> raw.ecsEnable > 0
  {
    var s := Normalise(raw, flags, known, soundOk).s;
    assert s.ecsEnable == raw.ecsEnable;
    if raw.ecsEnable > 0 {
      EcsPresent(s, cart);
      assert EcsRam in EcsDevices - {I2pc1, Cgc1};
    } else {
      EcsGating(s, cart);
      assert EcsRam in EcsDevices;
    }
  }
}
