/** The end of `cfg_init` (cfg.c lines 1045-1386): which devices are
    constructed, and the ordered list of address windows `periph_register`
    puts on the Intellivision bus. The devices themselves and the bus's
    address decoding are outside the model; a device is a name, and the bus
    is the list of its windows. */
module PeriphBus {
  import opened Options
  import Settings

  /** Every device `cfg_init` can put on the bus. The cartridge's own
      devices, registered by `legacy_register` or `icart_register`, are
      `Cart(k)`. */
  datatype Device =
    | Cpu | Psg0 | Psg1 | Ivoice | Gfx | Snd
    | ScrRam | SysRam | SysRam2 | Exec | Exec2
    | EcsRam | Ecs0 | Ecs1 | Ecs2
    | Pad0 | Pad1 | I2pc0 | I2pc1 | Cgc0 | Cgc1
    | SticCr | SnoopBtab | SnoopGram
    | EventDev | Speed | Debug
    | Cart(k: nat)

  /** One `periph_register(bus, device, lo, hi, name)` call. */
  datatype Descriptor = Descriptor(dev: Device, lo: int, hi: int, name: string)

  /** A Classic Game Controller request: its number and the device file
      named on the command line (`NULL` when none was given). */
  datatype CgcRequest = CgcRequest(num: int, devFile: Option<string>)

  /** The settings the assembly reads, after the option loop, the
      cartridge database and the INTV2PC port mapping. `rateCtl` is
      `rate_ctl > 0.0`. */
  datatype Setup = Setup(
    ecsEnable: int,
    ivcEnable: int,
    audioRate: int,
    execType: int,
    i2pc0Port: int,
    i2pc1Port: int,
    cgc0: CgcRequest,
    cgc1: CgcRequest,
    rateCtl: bool,
    debugging: bool)

  /** `cond ? windows : nothing`. */
  function When(cond: bool, ds: seq<Descriptor>): seq<Descriptor> {
    if cond then ds else []
  }

  // ---------------------------------------------------------------------
  //  The registration sequence
  // ---------------------------------------------------------------------

  const CpuWindow := Descriptor(Cpu, 0x0000, 0x0000, "CP-1610")
  const DebugWindow := Descriptor(Debug, 0x0000, 0xFFFF, "[Debugger]")

  /** Each of the functions below appends one block of `periph_register`
      calls to the windows `w` registered before it. */

  /** The CPU, the sound chips, the Intellivoice, graphics and sound
      (lines 1288-1298). */
  function ChipWindows(w: seq<Descriptor>, s: Setup): seq<Descriptor> {
    w + [CpuWindow] + [Descriptor(Psg0, 0x01F0, 0x01FF, "PSG0 AY8914")]
    + When(s.ecsEnable > 0, [Descriptor(Psg1, 0x00F0, 0x00FF, "PSG1 AY8914")])
    + When(s.ivcEnable > 0 && s.audioRate != 0, [Descriptor(Ivoice, 0x0080, 0x0081, "Int. Voice")])
    + [Descriptor(Gfx, 0x0000, 0x0000, "[Graphics]")]
    + When(s.audioRate != 0, [Descriptor(Snd, 0x0000, 0x0000, "[Sound]")])
  }

  /** The scratch and system RAM and the EXEC ROM (lines 1300-1314). */
  function MemoryWindows(w: seq<Descriptor>, s: Setup): seq<Descriptor> {
    w + [Descriptor(ScrRam, 0x0100, 0x01EF, "Scratch RAM")] + [Descriptor(SysRam, 0x0200, 0x035F, "System RAM")]
    + When(s.execType != 0, [Descriptor(SysRam2, 0x0360, 0x03FF, "System RAM B")])
    + ExecWindows(s)
  }

  function ExecWindows(s: Setup): seq<Descriptor> {
    if s.execType == 0 then [Descriptor(Exec, 0x1000, 0x1FFF, "EXEC ROM")]
    else [Descriptor(Exec, 0x1000, 0x1FFF, "EXEC2 main")] + [Descriptor(Exec2, 0x0400, 0x04FF, "EXEC2 aux.")]
  }

  /** The ECS's RAM and three ROMs (lines 1316-1322). */
  function EcsWindows(w: seq<Descriptor>, s: Setup): seq<Descriptor> {
    if s.ecsEnable > 0 then
      w + [Descriptor(EcsRam, 0x4000, 0x47FF, "ECS RAM")]
        + [Descriptor(Ecs0, 0x2000, 0x2FFF, "ECS ROM (2xxx)")]
        + [Descriptor(Ecs1, 0x7000, 0x7FFF, "ECS ROM (7xxx)")]
        + [Descriptor(Ecs2, 0xE000, 0xEFFF, "ECS ROM (Exxx)")]
    else w
  }

  /** The hand controllers of the two pad pairs (lines 1327-1330). */
  function PadWindows(w: seq<Descriptor>, s: Setup): seq<Descriptor> {
    w + [Descriptor(Pad0, 0x01F0, 0x01FF, "Pad Pair 0")]
    + When(s.ecsEnable > 0, [Descriptor(Pad1, 0x00F0, 0x00FF, "Pad Pair 1")])
  }

  /** The INTV2PC and CGC adaptors of the two pad pairs (lines 1331-1338). */
  function AdaptorWindows(w: seq<Descriptor>, s: Setup): seq<Descriptor> {
    w + When(s.i2pc0Port != 0, [Descriptor(I2pc0, 0x01F0, 0x01FF, "INTV2PC #0")])
    + When(s.i2pc1Port != 0 && s.ecsEnable > 0, [Descriptor(I2pc1, 0x00F0, 0x00FF, "INTV2PC #1")])
    + When(s.cgc0.num >= 0, [Descriptor(Cgc0, 0x01F0, 0x01FF, "CGC #0")])
    + When(s.cgc1.num >= 0 && s.ecsEnable > 0, [Descriptor(Cgc1, 0x00F0, 0x00FF, "CGC #1")])
  }

  /** The STIC's control registers with their three aliases, and its two
      bus snoopers (lines 1339-1344). */
  function SticWindows(w: seq<Descriptor>): seq<Descriptor> {
    w + [Descriptor(SticCr, 0x0000, 0x007F, "STIC")]
      + [Descriptor(SticCr, 0x4000, 0x403F, "STIC (alias)")]
      + [Descriptor(SticCr, 0x8000, 0x803F, "STIC (alias)")]
      + [Descriptor(SticCr, 0xC000, 0xC03F, "STIC (alias)")]
      + [Descriptor(SnoopBtab, 0x0200, 0x02EF, "STIC (BTAB)")]
      + [Descriptor(SnoopGram, 0x3000, 0x3FFF, "STIC (GRAM)")]
  }

  /** The event pump and the rate controller (lines 1346-1349). */
  function ServiceWindows(w: seq<Descriptor>, s: Setup): seq<Descriptor> {
    w + [Descriptor(EventDev, 0x0000, 0x0000, "[Event]")]
    + When(s.rateCtl, [Descriptor(Speed, 0x0000, 0x0000, "[Rate Ctrl]")])
  }

  /** The blocks of `periph_register` calls before the cartridge's. */
  datatype Block = Chips | Memory | EcsMemory | Pads | Adaptors | Stic | Services

  const MachineBlocks: seq<Block> := [Chips, Memory, EcsMemory, Pads, Adaptors, Stic, Services]

  function BlockWindows(w: seq<Descriptor>, s: Setup, b: Block): seq<Descriptor> {
    match b
    case Chips => ChipWindows(w, s)
    case Memory => MemoryWindows(w, s)
    case EcsMemory => EcsWindows(w, s)
    case Pads => PadWindows(w, s)
    case Adaptors => AdaptorWindows(w, s)
    case Stic => SticWindows(w)
    case Services => ServiceWindows(w, s)
  }

  /** The blocks `bs`, one after the other, after the windows `w`. */
  function RegisterBlocks(w: seq<Descriptor>, s: Setup, bs: seq<Block>): seq<Descriptor>
    decreases |bs|
  {
    if bs == [] then w else RegisterBlocks(BlockWindows(w, s, bs[0]), s, bs[1..])
  }

  /** Everything before the cartridge. */
  function MachineWindows(s: Setup): seq<Descriptor> {
    RegisterBlocks([], s, MachineBlocks)
  }

  /** The machine's windows, block by block. */
  lemma MachineWindowsInOrder(s: Setup)
    ensures MachineWindows(s) ==
      ServiceWindows(SticWindows(AdaptorWindows(PadWindows(EcsWindows(MemoryWindows(ChipWindows([], s), s), s), s), s)), s)
  {
    var bs := MachineBlocks;
    var w1 := ChipWindows([], s);
    var w2 := MemoryWindows(w1, s);
    var w3 := EcsWindows(w2, s);
    var w4 := PadWindows(w3, s);
    var w5 := AdaptorWindows(w4, s);
    var w6 := SticWindows(w5);
    var w7 := ServiceWindows(w6, s);
    assert RegisterBlocks([], s, bs) == RegisterBlocks(w1, s, bs[1..]);
    assert RegisterBlocks(w1, s, bs[1..]) == RegisterBlocks(w2, s, bs[2..]);
    assert RegisterBlocks(w2, s, bs[2..]) == RegisterBlocks(w3, s, bs[3..]);
    assert RegisterBlocks(w3, s, bs[3..]) == RegisterBlocks(w4, s, bs[4..]);
    assert RegisterBlocks(w4, s, bs[4..]) == RegisterBlocks(w5, s, bs[5..]);
    assert RegisterBlocks(w5, s, bs[5..]) == RegisterBlocks(w6, s, bs[6..]);
    assert RegisterBlocks(w6, s, bs[6..]) == RegisterBlocks(w7, s, bs[7..]);
  }

  /** The whole bus: the machine's windows, then the cartridge's, then the
      debugger, which "_must_ be done last" (line 1382). */
  function Layout(s: Setup, cart: seq<Descriptor>): seq<Descriptor> {
    MachineWindows(s) + cart + When(s.debugging, [DebugWindow])
  }

  /** The cartridge registers only its own devices. */
  predicate CartOnly(cart: seq<Descriptor>) {
    forall d :: d in cart ==> d.dev.Cart?
  }

  /** Some window of `ds` belongs to `dev`. */
  predicate Registers(ds: seq<Descriptor>, dev: Device)
    decreases |ds|
  {
    ds != [] && (ds[0].dev == dev || Registers(ds[1..], dev))
  }

  // ---------------------------------------------------------------------
  //  Construction
  // ---------------------------------------------------------------------

  /** The devices whose constructors `cfg_init` calls (lines 1045-1281),
      with the sound device built only when `snd_init` succeeded, that is
      when the rate is still non-zero afterwards. Each constructor that
      fails ends the program, so on the path that reaches registration all
      of them have succeeded. */
  predicate Built(s: Setup, dev: Device) {
    match dev
    case Cpu | Gfx | ScrRam | SysRam | SticCr | SnoopBtab | SnoopGram | Psg0 | Pad0 | EventDev | Exec => true
    case I2pc0 => s.i2pc0Port > 0
    case I2pc1 => s.ecsEnable > 0 && s.i2pc1Port != 0
    case Cgc0 => s.cgc0.num >= 0
    case Cgc1 => s.ecsEnable > 0 && s.cgc1.num >= 0
    case Snd => s.audioRate != 0
    case SysRam2 | Exec2 => s.execType != 0
    case EcsRam | Ecs0 | Ecs1 | Ecs2 | Psg1 | Pad1 => s.ecsEnable > 0
    case Speed => s.rateCtl
    case Debug => s.debugging
    case Ivoice => s.ivcEnable > 0 && s.audioRate > 0
    case Cart(_) => false
  }

  /** The `pad_cgc_init` call for pad pair `pair` as cfg.c makes it: pair 1
      is given pair 0's device file (line 1074). */
  function CgcInitAsWritten(s: Setup, pair: nat): CgcRequest
    requires pair < 2
  {
    if pair == 0 then s.cgc0 else CgcRequest(s.cgc1.num, s.cgc0.devFile)
  }

  /** With `--cgc1=/dev/b` and no `--cgc0` device, pad pair 1's adaptor is
      opened without the device file its option named. */
  lemma CgcOneIgnoresItsDevice()
    ensures var s := Setup(1, 0, 0, 0, 0, 0, CgcRequest(-1, None), CgcRequest(0, Some("/dev/b")), false, false);
      CgcInitAsWritten(s, 1).devFile != s.cgc1.devFile
  {
  }

  /** The corrected call: pad pair `pair` gets its own option's request.
      It keeps the call's CGC number, differs from the call as written
      exactly for pair 1 when the two options name different device files,
      and then takes the file named for pair 1. */
  function CgcInit(s: Setup, pair: nat): (r: CgcRequest)
    requires pair < 2
    ensures r.num == CgcInitAsWritten(s, pair).num
    ensures r == CgcInitAsWritten(s, pair) <==> pair == 0 || s.cgc0.devFile == s.cgc1.devFile
    ensures r.devFile == s.cgc0.devFile || r.devFile == s.cgc1.devFile
  {
    if pair == 0 then s.cgc0 else s.cgc1
  }

  /** Pad pair 1's adaptor depends on its own option alone: changing the
      `--cgc0` request never changes it. */
  lemma CgcOneIndependentOfCgcZero(s: Setup, other: CgcRequest)
    ensures CgcInit(s.(cgc0 := other), 1) == CgcInit(s, 1)
  {
  }

  /** The same independence fails for the call as written. */
  lemma CgcOneAsWrittenDependsOnCgcZero(s: Setup)
    requires s.cgc0.devFile != s.cgc1.devFile
    ensures CgcInitAsWritten(s.(cgc0 := s.cgc1), 1) != CgcInitAsWritten(s, 1)
  {
  }

  // ---------------------------------------------------------------------
  //  The bus
  // ---------------------------------------------------------------------

  /** `cfg->intv`: the windows registered so far, in order. */
  class Bus {
    var windows: seq<Descriptor>

    /** `periph_new`: an empty bus. */
    constructor ()
      ensures windows == []
    {
      windows := [];
    }

    /** `periph_register`: one more window at the end. */
    method Register(dev: Device, lo: int, hi: int, name: string)
      modifies this
      ensures windows == old(windows) + [Descriptor(dev, lo, hi, name)]
    {
      windows := windows + [Descriptor(dev, lo, hi, name)];
    }

    method RegisterChips(s: Setup)
      modifies this
      ensures windows == ChipWindows(old(windows), s)
    {
      Register(Cpu, 0x0000, 0x0000, "CP-1610");
      Register(Psg0, 0x01F0, 0x01FF, "PSG0 AY8914");
      if s.ecsEnable > 0 {
        Register(Psg1, 0x00F0, 0x00FF, "PSG1 AY8914");
      }
      if s.ivcEnable > 0 && s.audioRate != 0 {
        Register(Ivoice, 0x0080, 0x0081, "Int. Voice");
      }
      Register(Gfx, 0x0000, 0x0000, "[Graphics]");
      if s.audioRate != 0 {
        Register(Snd, 0x0000, 0x0000, "[Sound]");
      }
    }

    method RegisterMemory(s: Setup)
      modifies this
      ensures windows == MemoryWindows(old(windows), s)
    {
      Register(ScrRam, 0x0100, 0x01EF, "Scratch RAM");
      Register(SysRam, 0x0200, 0x035F, "System RAM");
      if s.execType != 0 {
        Register(SysRam2, 0x0360, 0x03FF, "System RAM B");
      }
      if s.execType == 0 {
        Register(Exec, 0x1000, 0x1FFF, "EXEC ROM");
      } else {
        Register(Exec, 0x1000, 0x1FFF, "EXEC2 main");
        Register(Exec2, 0x0400, 0x04FF, "EXEC2 aux.");
      }
    }

    method RegisterEcs(s: Setup)
      modifies this
      ensures windows == EcsWindows(old(windows), s)
    {
      if s.ecsEnable > 0 {
        Register(EcsRam, 0x4000, 0x47FF, "ECS RAM");
        Register(Ecs0, 0x2000, 0x2FFF, "ECS ROM (2xxx)");
        Register(Ecs1, 0x7000, 0x7FFF, "ECS ROM (7xxx)");
        Register(Ecs2, 0xE000, 0xEFFF, "ECS ROM (Exxx)");
      }
    }

    method RegisterPads(s: Setup)
      modifies this
      ensures windows == PadWindows(old(windows), s)
    {
      Register(Pad0, 0x01F0, 0x01FF, "Pad Pair 0");
      if s.ecsEnable > 0 {
        Register(Pad1, 0x00F0, 0x00FF, "Pad Pair 1");
      }
    }

    method RegisterAdaptors(s: Setup)
      modifies this
      ensures windows == AdaptorWindows(old(windows), s)
    {
      if s.i2pc0Port != 0 {
        Register(I2pc0, 0x01F0, 0x01FF, "INTV2PC #0");
      }
      if s.i2pc1Port != 0 && s.ecsEnable > 0 {
        Register(I2pc1, 0x00F0, 0x00FF, "INTV2PC #1");
      }
      if s.cgc0.num >= 0 {
        Register(Cgc0, 0x01F0, 0x01FF, "CGC #0");
      }
      if s.cgc1.num >= 0 && s.ecsEnable > 0 {
        Register(Cgc1, 0x00F0, 0x00FF, "CGC #1");
      }
    }

    method RegisterStic()
      modifies this
      ensures windows == SticWindows(old(windows))
    {
      Register(SticCr, 0x0000, 0x007F, "STIC");
      Register(SticCr, 0x4000, 0x403F, "STIC (alias)");
      Register(SticCr, 0x8000, 0x803F, "STIC (alias)");
      Register(SticCr, 0xC000, 0xC03F, "STIC (alias)");
      Register(SnoopBtab, 0x0200, 0x02EF, "STIC (BTAB)");
      Register(SnoopGram, 0x3000, 0x3FFF, "STIC (GRAM)");
    }

    method RegisterServices(s: Setup)
      modifies this
      ensures windows == ServiceWindows(old(windows), s)
    {
      Register(EventDev, 0x0000, 0x0000, "[Event]");
      if s.rateCtl {
        Register(Speed, 0x0000, 0x0000, "[Rate Ctrl]");
      }
    }

    /** The cartridge's registrations, whatever they are. */
    method RegisterCart(cart: seq<Descriptor>)
      modifies this
      ensures windows == old(windows) + cart
    {
      var i := 0;
      while i < |cart|
        invariant 0 <= i <= |cart|
        invariant windows == old(windows) + cart[..i]
      {
        Register(cart[i].dev, cart[i].lo, cart[i].hi, cart[i].name);
        assert cart[..i + 1] == cart[..i] + [cart[i]];
        i := i + 1;
      }
      assert cart[..i] == cart;
    }
  }

  /** Lines 1288-1386 on a fresh bus. */
  method Assemble(s: Setup, cart: seq<Descriptor>) returns (bus: Bus)
    ensures fresh(bus)
    ensures bus.windows == Layout(s, cart)
  {
    MachineWindowsInOrder(s);
    bus := new Bus();
    bus.RegisterChips(s);
    bus.RegisterMemory(s);
    bus.RegisterEcs(s);
    bus.RegisterPads(s);
    bus.RegisterAdaptors(s);
    bus.RegisterStic();
    bus.RegisterServices(s);
    bus.RegisterCart(cart);
    if s.debugging {
      bus.Register(Debug, 0x0000, 0xFFFF, "[Debugger]");
    }
  }
}
