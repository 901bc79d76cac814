/** What the registration sequence of `cfg_init` guarantees about the
    bus: which devices appear and under what condition, that each of them
    was constructed, where the windows lie and in which order the CPU, the
    cartridge and the debugger come. */
module BusFacts {
  import opened PeriphBus

  /** The condition under which cfg.c registers `dev` (lines 1288-1386),
      device by device. */
  predicate Gate(s: Setup, dev: Device) {
    match dev
    case Cpu | Psg0 | Gfx | ScrRam | SysRam | Exec | Pad0 | SticCr | SnoopBtab | SnoopGram | EventDev => true
    case Psg1 | EcsRam | Ecs0 | Ecs1 | Ecs2 | Pad1 => s.ecsEnable > 0
    case Ivoice => s.ivcEnable > 0 && s.audioRate != 0
    case Snd => s.audioRate != 0
    case SysRam2 | Exec2 => s.execType != 0
    case I2pc0 => s.i2pc0Port != 0
    case I2pc1 => s.i2pc1Port != 0 && s.ecsEnable > 0
    case Cgc0 => s.cgc0.num >= 0
    case Cgc1 => s.cgc1.num >= 0 && s.ecsEnable > 0
    case Speed => s.rateCtl
    case Debug => s.debugging
    case Cart(_) => false
  }

  /** The devices that take no addresses and are registered at
      0x0000-0x0000 only to be ticked. */
  const Tickers: set<Device> := {Cpu, Gfx, Snd, EventDev, Speed}

  /** The four places the STIC's control registers appear. */
  const SticBases: set<int> := {0x0000, 0x4000, 0x8000, 0xC000}

  /** The ECS and every device that sits on its second pad pair. */
  const EcsDevices: set<Device> := {Psg1, EcsRam, Ecs0, Ecs1, Ecs2, Pad1, I2pc1, Cgc1}

  /** What each window the machine registers for itself satisfies: its
      device's gate holds, it lies in the 16-bit address space, it is
      0x0000-0x0000 exactly for a ticker, and a STIC window starts at one of
      the four bases. */
  predicate Placed(s: Setup, d: Descriptor) {
    Gate(s, d.dev) && !d.dev.Cart? && d.dev != Debug &&
    0 <= d.lo <= d.hi <= 0xFFFF &&
    (d.lo == 0 && d.hi == 0 <==> d.dev in Tickers) &&
    (d.dev == SticCr ==> d.lo in SticBases)
  }

  // ---------------------------------------------------------------------
  //  Block by block
  // ---------------------------------------------------------------------

  lemma ChipsPlaced(w: seq<Descriptor>, s: Setup)
    ensures forall d :: d in ChipWindows(w, s) ==> d in w || Placed(s, d)
  {
  }

  lemma MemoryPlaced(w: seq<Descriptor>, s: Setup)
    ensures forall d :: d in MemoryWindows(w, s) ==> d in w || Placed(s, d)
  {
  }

  lemma EcsPlaced(w: seq<Descriptor>, s: Setup)
    ensures forall d :: d in EcsWindows(w, s) ==> d in w || Placed(s, d)
  {
  }

  lemma PadsPlaced(w: seq<Descriptor>, s: Setup)
    ensures forall d :: d in PadWindows(w, s) ==> d in w || Placed(s, d)
  {
  }

  lemma AdaptorsPlaced(w: seq<Descriptor>, s: Setup)
    ensures forall d :: d in AdaptorWindows(w, s) ==> d in w || Placed(s, d)
  {
  }

  lemma SticPlaced(w: seq<Descriptor>, s: Setup)
    ensures forall d :: d in SticWindows(w) ==> d in w || Placed(s, d)
  {
  }

  lemma ServicesPlaced(w: seq<Descriptor>, s: Setup)
    ensures forall d :: d in ServiceWindows(w, s) ==> d in w || Placed(s, d)
  {
  }

  lemma BlockPlaced(w: seq<Descriptor>, s: Setup, b: Block)
    ensures forall d :: d in BlockWindows(w, s, b) ==> d in w || Placed(s, d)
  {
    match b
    case Chips => ChipsPlaced(w, s);
    case Memory => MemoryPlaced(w, s);
    case EcsMemory => EcsPlaced(w, s);
    case Pads => PadsPlaced(w, s);
    case Adaptors => AdaptorsPlaced(w, s);
    case Stic => SticPlaced(w, s);
    case Services => ServicesPlaced(w, s);
  }

  /** A block never drops what was registered before it, and comes after
      it. */
  lemma BlockKeeps(w: seq<Descriptor>, s: Setup, b: Block)
    ensures w <= BlockWindows(w, s, b)
    ensures forall d :: d in w ==> d in BlockWindows(w, s, b)
  {
  }

  lemma {:induction false} BlocksPlaced(w: seq<Descriptor>, s: Setup, bs: seq<Block>)
    ensures forall d :: d in RegisterBlocks(w, s, bs) ==> d in w || Placed(s, d)
    decreases |bs|
  {
    if bs != [] {
      var next := BlockWindows(w, s, bs[0]);
      BlockPlaced(w, s, bs[0]);
      BlocksPlaced(next, s, bs[1..]);
    }
  }

  lemma {:induction false} BlocksKeep(w: seq<Descriptor>, s: Setup, bs: seq<Block>)
    ensures w <= RegisterBlocks(w, s, bs)
    ensures forall d :: d in w ==> d in RegisterBlocks(w, s, bs)
    decreases |bs|
  {
    if bs != [] {
      var next := BlockWindows(w, s, bs[0]);
      BlockKeeps(w, s, bs[0]);
      BlocksKeep(next, s, bs[1..]);
    }
  }

  /** A window that block `b` adds whatever came before it is on the bus
      once `b` has run. */
  lemma {:induction false} BlocksAdd(w: seq<Descriptor>, s: Setup, bs: seq<Block>, b: Block, d: Descriptor)
    requires b in bs
    requires forall v :: d in BlockWindows(v, s, b)
    ensures d in RegisterBlocks(w, s, bs)
    decreases |bs|
  {
    var next := BlockWindows(w, s, bs[0]);
    if bs[0] == b {
      BlocksKeep(next, s, bs[1..]);
    } else {
      assert b in bs[1..];
      BlocksAdd(next, s, bs[1..], b, d);
    }
  }

  /** Every window the machine registers before the cartridge is placed. */
  lemma MachinePlaced(s: Setup)
    ensures forall d :: d in MachineWindows(s) ==> Placed(s, d)
  {
    BlocksPlaced([], s, MachineBlocks);
  }

  /** The block that registers `dev`. */
  function BlockOf(dev: Device): Block
    requires !dev.Cart? && dev != Debug
  {
    match dev
    case Cpu | Psg0 | Psg1 | Ivoice | Gfx | Snd => Chips
    case ScrRam | SysRam | SysRam2 | Exec | Exec2 => Memory
    case EcsRam | Ecs0 | Ecs1 | Ecs2 => EcsMemory
    case Pad0 | Pad1 => Pads
    case I2pc0 | I2pc1 | Cgc0 | Cgc1 => Adaptors
    case SticCr | SnoopBtab | SnoopGram => Stic
    case EventDev | Speed => Services
  }

  /** The window cfg.c gives `dev` (for the STIC, the first of its four). */
  function WindowFor(s: Setup, dev: Device): (d: Descriptor)
    requires !dev.Cart? && dev != Debug
    ensures d.dev == dev
  {
    match dev
    case Cpu => CpuWindow
    case Psg0 => Descriptor(Psg0, 0x01F0, 0x01FF, "PSG0 AY8914")
    case Psg1 => Descriptor(Psg1, 0x00F0, 0x00FF, "PSG1 AY8914")
    case Ivoice => Descriptor(Ivoice, 0x0080, 0x0081, "Int. Voice")
    case Gfx => Descriptor(Gfx, 0x0000, 0x0000, "[Graphics]")
    case Snd => Descriptor(Snd, 0x0000, 0x0000, "[Sound]")
    case ScrRam => Descriptor(ScrRam, 0x0100, 0x01EF, "Scratch RAM")
    case SysRam => Descriptor(SysRam, 0x0200, 0x035F, "System RAM")
    case SysRam2 => Descriptor(SysRam2, 0x0360, 0x03FF, "System RAM B")
    case Exec => Descriptor(Exec, 0x1000, 0x1FFF, if s.execType == 0 then "EXEC ROM" else "EXEC2 main")
    case Exec2 => Descriptor(Exec2, 0x0400, 0x04FF, "EXEC2 aux.")
    case EcsRam => Descriptor(EcsRam, 0x4000, 0x47FF, "ECS RAM")
    case Ecs0 => Descriptor(Ecs0, 0x2000, 0x2FFF, "ECS ROM (2xxx)")
    case Ecs1 => Descriptor(Ecs1, 0x7000, 0x7FFF, "ECS ROM (7xxx)")
    case Ecs2 => Descriptor(Ecs2, 0xE000, 0xEFFF, "ECS ROM (Exxx)")
    case Pad0 => Descriptor(Pad0, 0x01F0, 0x01FF, "Pad Pair 0")
    case Pad1 => Descriptor(Pad1, 0x00F0, 0x00FF, "Pad Pair 1")
    case I2pc0 => Descriptor(I2pc0, 0x01F0, 0x01FF, "INTV2PC #0")
    case I2pc1 => Descriptor(I2pc1, 0x00F0, 0x00FF, "INTV2PC #1")
    case Cgc0 => Descriptor(Cgc0, 0x01F0, 0x01FF, "CGC #0")
    case Cgc1 => Descriptor(Cgc1, 0x00F0, 0x00FF, "CGC #1")
    case SticCr => Descriptor(SticCr, 0x0000, 0x007F, "STIC")
    case SnoopBtab => Descriptor(SnoopBtab, 0x0200, 0x02EF, "STIC (BTAB)")
    case SnoopGram => Descriptor(SnoopGram, 0x3000, 0x3FFF, "STIC (GRAM)")
    case EventDev => Descriptor(EventDev, 0x0000, 0x0000, "[Event]")
    case Speed => Descriptor(Speed, 0x0000, 0x0000, "[Rate Ctrl]")
  }

  /** A device's block adds its window whenever its gate holds. */
  lemma BlockAddsWindow(w: seq<Descriptor>, s: Setup, dev: Device)
    requires !dev.Cart? && dev != Debug && Gate(s, dev)
    ensures WindowFor(s, dev) in BlockWindows(w, s, BlockOf(dev))
  {
    match dev {
      case Cpu =>
      case Psg0 =>
      case Psg1 =>
      case Ivoice =>
      case Gfx =>
      case Snd =>
      case ScrRam =>
      case SysRam =>
      case SysRam2 =>
      case Exec =>
      case Exec2 =>
      case EcsRam =>
      case Ecs0 =>
      case Ecs1 =>
      case Ecs2 =>
      case Pad0 =>
      case Pad1 =>
      case I2pc0 =>
      case I2pc1 =>
      case Cgc0 =>
      case Cgc1 =>
      case SticCr =>
      case SnoopBtab =>
      case SnoopGram =>
      case EventDev =>
      case Speed =>
    }
  }

  /** Every device whose gate holds has its window before the cartridge. */
  lemma MachineRegistersGated(s: Setup, dev: Device)
    requires !dev.Cart? && dev != Debug && Gate(s, dev)
    ensures WindowFor(s, dev) in MachineWindows(s)
  {
    var b := BlockOf(dev);
    forall v
      ensures WindowFor(s, dev) in BlockWindows(v, s, b)
    {
      BlockAddsWindow(v, s, dev);
    }
    assert b in MachineBlocks;
    BlocksAdd([], s, MachineBlocks, b, WindowFor(s, dev));
  }

  // ---------------------------------------------------------------------
  //  The whole bus
  // ---------------------------------------------------------------------

  /** `Registers` is membership of some window of the device. */
  lemma {:induction false} RegistersMeansMember(ds: seq<Descriptor>, dev: Device)
    ensures Registers(ds, dev) <==> exists d :: d in ds && d.dev == dev
    decreases |ds|
  {
    if ds != [] {
      RegistersMeansMember(ds[1..], dev);
      if exists d :: d in ds && d.dev == dev {
        var d :| d in ds && d.dev == dev;
        if d != ds[0] {
          assert d in ds[1..];
        }
      }
    }
  }

  lemma MachinePlacedAt(s: Setup, d: Descriptor)
    requires d in MachineWindows(s)
    ensures Placed(s, d)
  {
    MachinePlaced(s);
  }

  /** Every window of the bus that is not the cartridge's is placed, or is
      the debugger's. */
  lemma LayoutPlacedAt(s: Setup, cart: seq<Descriptor>, d: Descriptor)
    requires CartOnly(cart) && d in Layout(s, cart) && !d.dev.Cart?
    ensures Placed(s, d) || (d == DebugWindow && s.debugging)
  {
    if d in MachineWindows(s) {
      MachinePlacedAt(s, d);
    } else {
      assert d !in cart;
    }
  }

  /** When its gate holds, a device has the window cfg.c gives it. */
  lemma LayoutHasWindow(s: Setup, cart: seq<Descriptor>, dev: Device)
    requires !dev.Cart? && dev != Debug && Gate(s, dev)
    ensures WindowFor(s, dev) in Layout(s, cart)
  {
    MachineRegistersGated(s, dev);
  }

  /** The bus holds a window for `dev` exactly when its gate holds,
      whatever the cartridge registers. */
  lemma LayoutRegisters(s: Setup, cart: seq<Descriptor>, dev: Device)
    requires CartOnly(cart) && !dev.Cart?
    ensures Registers(Layout(s, cart), dev) <==> Gate(s, dev)
  {
    if Gate(s, dev) {
      GatedRegisters(s, cart, dev);
    }
    if Registers(Layout(s, cart), dev) {
      RegisteredGated(s, cart, dev);
    }
  }

  lemma GatedRegisters(s: Setup, cart: seq<Descriptor>, dev: Device)
    requires !dev.Cart? && Gate(s, dev)
    ensures Registers(Layout(s, cart), dev)
  {
    var all := Layout(s, cart);
    RegistersMeansMember(all, dev);
    if dev == Debug {
      assert DebugWindow in all;
    } else {
      LayoutHasWindow(s, cart, dev);
    }
  }

  lemma RegisteredGated(s: Setup, cart: seq<Descriptor>, dev: Device)
    requires CartOnly(cart) && !dev.Cart? && Registers(Layout(s, cart), dev)
    ensures Gate(s, dev)
  {
    var all := Layout(s, cart);
    RegistersMeansMember(all, dev);
    var d :| d in all && d.dev == dev;
    LayoutPlacedAt(s, cart, d);
  }

  /** The same for every device of the machine at once. */
  lemma LayoutRegistersExactly(s: Setup, cart: seq<Descriptor>)
    requires CartOnly(cart)
    ensures forall dev: Device :: !dev.Cart? ==> (Registers(Layout(s, cart), dev) <==> Gate(s, dev))
  {
    forall dev: Device | !dev.Cart?
      ensures Registers(Layout(s, cart), dev) <==> Gate(s, dev)
    {
      LayoutRegisters(s, cart, dev);
    }
  }

  /** The windows of the machine's own devices lie in the 16-bit address
      space; the ones at 0x0000-0x0000 are exactly the tickers; the STIC
      appears at its four bases and nowhere else. */
  lemma WindowsPlaced(s: Setup, cart: seq<Descriptor>)
    requires CartOnly(cart)
    ensures forall d :: d in Layout(s, cart) && !d.dev.Cart? ==>
      0 <= d.lo <= d.hi <= 0xFFFF && (d.lo == 0 && d.hi == 0 <==> d.dev in Tickers)
    ensures forall d :: d in Layout(s, cart) && d.dev == SticCr ==> d.lo in SticBases
  {
    forall d | d in Layout(s, cart) && !d.dev.Cart?
      ensures 0 <= d.lo <= d.hi <= 0xFFFF && (d.lo == 0 && d.hi == 0 <==> d.dev in Tickers)
      ensures d.dev == SticCr ==> d.lo in SticBases
    {
      LayoutPlacedAt(s, cart, d);
      PlacedBounds(s, d);
    }
  }

  lemma PlacedBounds(s: Setup, d: Descriptor)
    requires Placed(s, d) || d == DebugWindow
    ensures 0 <= d.lo <= d.hi <= 0xFFFF && (d.lo == 0 && d.hi == 0 <==> d.dev in Tickers)
    ensures d.dev == SticCr ==> d.lo in SticBases
  {
  }

  /** The STIC's control registers are registered four times under the
      same device, at 0x0000, 0x4000, 0x8000 and 0xC000. */
  lemma SticAliases(s: Setup, cart: seq<Descriptor>)
    ensures Descriptor(SticCr, 0x0000, 0x007F, "STIC") in Layout(s, cart)
    ensures Descriptor(SticCr, 0x4000, 0x403F, "STIC (alias)") in Layout(s, cart)
    ensures Descriptor(SticCr, 0x8000, 0x803F, "STIC (alias)") in Layout(s, cart)
    ensures Descriptor(SticCr, 0xC000, 0xC03F, "STIC (alias)") in Layout(s, cart)
  {
    assert Stic in MachineBlocks;
    BlocksAdd([], s, MachineBlocks, Stic, Descriptor(SticCr, 0x0000, 0x007F, "STIC"));
    BlocksAdd([], s, MachineBlocks, Stic, Descriptor(SticCr, 0x4000, 0x403F, "STIC (alias)"));
    BlocksAdd([], s, MachineBlocks, Stic, Descriptor(SticCr, 0x8000, 0x803F, "STIC (alias)"));
    BlocksAdd([], s, MachineBlocks, Stic, Descriptor(SticCr, 0xC000, 0xC03F, "STIC (alias)"));
  }

  /** The CPU is the first device on the bus. */
  lemma CpuFirst(s: Setup, cart: seq<Descriptor>)
    ensures |Layout(s, cart)| > 0 && Layout(s, cart)[0] == CpuWindow
  {
    var chips := ChipWindows([], s);
    assert chips[0] == CpuWindow;
    var bs := MachineBlocks;
    assert MachineWindows(s) == RegisterBlocks(chips, s, bs[1..]);
    BlocksKeep(chips, s, bs[1..]);
  }

  /** The debugger is on the bus exactly when debugging is on; it then
      comes after every other window, the cartridge's included, and spans
      the whole address space. */
  lemma DebuggerIffDebugging(s: Setup, cart: seq<Descriptor>)
    requires CartOnly(cart)
    ensures Registers(Layout(s, cart), Debug) <==> s.debugging
  {
    assert Gate(s, Debug) == s.debugging;
    LayoutRegisters(s, cart, Debug);
  }

  lemma DebuggerLast(s: Setup, cart: seq<Descriptor>)
    requires CartOnly(cart) && s.debugging
    ensures var all := Layout(s, cart);
      all[|all| - 1] == DebugWindow && DebugWindow.lo == 0x0000 && DebugWindow.hi == 0xFFFF &&
      forall i :: 0 <= i < |all| - 1 ==> all[i].dev != Debug
  {
    var all := Layout(s, cart);
    var before := MachineWindows(s) + cart;
    assert all == before + [DebugWindow];
    forall i | 0 <= i < |all| - 1
      ensures all[i].dev != Debug
    {
      var d := before[i];
      assert all[i] == d && d in before;
      if d in MachineWindows(s) {
        MachinePlacedAt(s, d);
        PlacedIsNotDebugger(s, d);
      }
    }
  }

  lemma PlacedIsNotDebugger(s: Setup, d: Descriptor)
    requires Placed(s, d)
    ensures d.dev != Debug
  {
  }

  /** The ECS's devices and everything on the second pad pair appear only
      when the ECS is enabled; with it, its RAM, ROMs, sound chip and
      keyboard always appear. */
  lemma EcsGating(s: Setup, cart: seq<Descriptor>)
    requires CartOnly(cart) && s.ecsEnable <= 0
    ensures forall dev :: dev in EcsDevices ==> !Registers(Layout(s, cart), dev)
  {
    forall dev | dev in EcsDevices
      ensures !Registers(Layout(s, cart), dev)
    {
      LayoutRegisters(s, cart, dev);
      EcsGate(s, dev);
    }
  }

  lemma EcsPresent(s: Setup, cart: seq<Descriptor>)
    requires CartOnly(cart) && s.ecsEnable > 0
    ensures forall dev :: dev in EcsDevices - {I2pc1, Cgc1} ==> Registers(Layout(s, cart), dev)
  {
    forall dev | dev in EcsDevices - {I2pc1, Cgc1}
      ensures Registers(Layout(s, cart), dev)
    {
      LayoutRegisters(s, cart, dev);
      EcsGate(s, dev);
    }
  }

  lemma EcsGate(s: Setup, dev: Device)
    requires dev in EcsDevices
    ensures Gate(s, dev) ==> s.ecsEnable > 0
    ensures s.ecsEnable > 0 && dev !in {I2pc1, Cgc1} ==> Gate(s, dev)
  {
  }

  /** The Intellivoice is registered exactly when it is enabled and there
      is sound; the EXEC2 auxiliary ROM and System RAM B exactly for a
      two-part EXEC. */
  lemma IvoiceAndExec2Gating(s: Setup, cart: seq<Descriptor>)
    requires CartOnly(cart)
    ensures Registers(Layout(s, cart), Ivoice) <==> s.ivcEnable > 0 && s.audioRate != 0
    ensures Registers(Layout(s, cart), Snd) <==> s.audioRate != 0
    ensures Registers(Layout(s, cart), Exec2) <==> s.execType != 0
    ensures Registers(Layout(s, cart), SysRam2) <==> s.execType != 0
  {
    assert Gate(s, Ivoice) == (s.ivcEnable > 0 && s.audioRate != 0);
    assert Gate(s, Snd) == (s.audioRate != 0);
    assert Gate(s, Exec2) == (s.execType != 0);
    assert Gate(s, SysRam2) == (s.execType != 0);
    LayoutRegisters(s, cart, Ivoice);
    LayoutRegisters(s, cart, Snd);
    LayoutRegisters(s, cart, Exec2);
    LayoutRegisters(s, cart, SysRam2);
  }

  // ---------------------------------------------------------------------
  //  Registration and construction
  // ---------------------------------------------------------------------

  /** Registration and construction use the same conditions, once the
      INTV2PC port is a table entry and the audio rate is not negative. */
  lemma GateIsBuilt(s: Setup, dev: Device)
    requires s.i2pc0Port >= 0 && s.audioRate >= 0
    ensures Gate(s, dev) <==> Built(s, dev)
  {
  }

  /** Every device of the machine on the bus was constructed, and every
      constructed device is on the bus. */
  lemma RegisteredWereBuilt(s: Setup, cart: seq<Descriptor>)
    requires CartOnly(cart)
    requires s.i2pc0Port >= 0 && s.audioRate >= 0
    ensures forall dev: Device :: !dev.Cart? ==> (Registers(Layout(s, cart), dev) <==> Built(s, dev))
  {
    forall dev: Device | !dev.Cart?
      ensures Registers(Layout(s, cart), dev) <==> Built(s, dev)
    {
      LayoutRegisters(s, cart, dev);
      GateIsBuilt(s, dev);
    }
  }

  /** The Intellivoice's two gates differ for a negative audio rate: it is
      registered (`audio_rate` non-zero) without having been constructed
      (`audio_rate > 0`). */
  lemma IvoiceGatesDiffer()
    ensures var s := Setup(0, 1, -1, 0, 0, 0, CgcRequest(-1, Options.None), CgcRequest(-1, Options.None), false, false);
      Gate(s, Ivoice) && !Built(s, Ivoice)
  {
  }
}
