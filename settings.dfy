/** The flag handling of `cfg_init` (cfg.c lines 505-857 and 997-1125)
    that decides which devices the machine gets: the graphics flags set by
    `CHG_BIT`, the keyboard map and cartridge-cache choices, the debugger
    switch, the INTV2PC port table, the cartridge database's defaults, the
    sound fallback and the executable's directory. */
module Settings {
  import opened Options
  import opened Text

  // ---------------------------------------------------------------------
  //  Graphics flags
  // ---------------------------------------------------------------------

  /** The `GFX_*` flag bits. Their values live in gfx.h, which is not part
      of this model; everything proved below needs only that they are
      distinct single bits. */
  const GfxFullsc: bv32 := 0x01
  const GfxSwsurf: bv32 := 0x02
  const GfxDblbuf: bv32 := 0x04
  const GfxAsyncb: bv32 := 0x08
  const GfxHwpal: bv32 := 0x10
  const GfxDrects: bv32 := 0x20
  const GfxDrcmrg: bv32 := 0x40

  /** `CHG_BIT(var, bit, to)`: set the bits of `bit` when `to`, clear them
      otherwise; every other bit keeps its value. */
  function ChgBit(v: bv32, bit: bv32, to: bool): (r: bv32)
    ensures r & bit == (if to then bit else 0)
    ensures r & !bit == v & !bit
  {
    (v & !bit) | (if to then bit else 0)
  }

  /** The graphics options of the command line: `-f`/`-x`, and the long
      options 9, 10, 11, 12, 16 and 17. */
  datatype GfxOption = FullScreen | SwSurface | DoubleBuffer | AsyncBlit | HwPalette | DirtyRects | DirtyRectMerge

  /** The effect of one graphics option with value `value` (its argument
      through `atoi`, or 1 when it has none). Double buffering and dirty
      rectangles switch each other off. */
  function GfxFlagsAfter(flags: bv32, opt: GfxOption, value: int): bv32 {
    match opt
    case FullScreen => ChgBit(flags, GfxFullsc, value != 0)
    case SwSurface => ChgBit(flags, GfxSwsurf, value != 0)
    case DoubleBuffer =>
      var f := ChgBit(flags, GfxDblbuf, value != 0);
      if value != 0 then ChgBit(f, GfxDrects, false) else f
    case AsyncBlit => ChgBit(flags, GfxAsyncb, value != 0)
    case HwPalette => ChgBit(flags, GfxHwpal, value != 0)
    case DirtyRects =>
      var f := ChgBit(flags, GfxDrects, value != 0);
      if value != 0 then ChgBit(f, GfxDblbuf, false) else f
    case DirtyRectMerge => ChgBit(flags, GfxDrcmrg, value != 0)
  }

  /** Double buffering and dirty rectangles are not both on. */
  predicate BufferingConsistent(flags: bv32) {
    flags & GfxDblbuf == 0 || flags & GfxDrects == 0
  }

  /** The option that was given last decides: a non-zero
      `--gfx-dblbuf` leaves double buffering on and dirty rectangles off,
      and a non-zero `--gfx-dirtyrect` the reverse. */
  lemma LastBufferingOptionWins(flags: bv32, value: int)
    requires value != 0
    ensures var f := GfxFlagsAfter(flags, DoubleBuffer, value); f & GfxDblbuf == GfxDblbuf && f & GfxDrects == 0
    ensures var f := GfxFlagsAfter(flags, DirtyRects, value); f & GfxDrects == GfxDrects && f & GfxDblbuf == 0
  {
    var f := ChgBit(flags, GfxDblbuf, true);
    assert ChgBit(f, GfxDrects, false) & GfxDblbuf == f & GfxDblbuf by {
      assert GfxDblbuf & !GfxDrects == GfxDblbuf;
      ChgBitKeeps(f, GfxDrects, false, GfxDblbuf);
    }
    var g := ChgBit(flags, GfxDrects, true);
    assert ChgBit(g, GfxDblbuf, false) & GfxDrects == g & GfxDrects by {
      assert GfxDrects & !GfxDblbuf == GfxDrects;
      ChgBitKeeps(g, GfxDblbuf, false, GfxDrects);
    }
  }

  /** `CHG_BIT` on `bit` leaves every bit of `other` alone when the two do
      not overlap. */
  lemma ChgBitKeeps(v: bv32, bit: bv32, to: bool, other: bv32)
    requires other & !bit == other
    ensures ChgBit(v, bit, to) & other == v & other
  {
    var r := ChgBit(v, bit, to);
    calc {
      r & other;
      r & (other & !bit);
      (r & !bit) & other;
      (v & !bit) & other;
      v & (other & !bit);
      v & other;
    }
  }

  /** No single graphics option turns both buffering modes on. */
  lemma GfxOptionKeepsBuffering(flags: bv32, opt: GfxOption, value: int)
    requires BufferingConsistent(flags)
    ensures BufferingConsistent(GfxFlagsAfter(flags, opt, value))
  {
    var r := GfxFlagsAfter(flags, opt, value);
    assert GfxDblbuf & !GfxFullsc == GfxDblbuf && GfxDrects & !GfxFullsc == GfxDrects;
    assert GfxDblbuf & !GfxSwsurf == GfxDblbuf && GfxDrects & !GfxSwsurf == GfxDrects;
    assert GfxDblbuf & !GfxAsyncb == GfxDblbuf && GfxDrects & !GfxAsyncb == GfxDrects;
    assert GfxDblbuf & !GfxHwpal == GfxDblbuf && GfxDrects & !GfxHwpal == GfxDrects;
    assert GfxDblbuf & !GfxDrcmrg == GfxDblbuf && GfxDrects & !GfxDrcmrg == GfxDrects;
    assert GfxDrects & !GfxDblbuf == GfxDrects && GfxDblbuf & !GfxDrects == GfxDblbuf;
    match opt
    case FullScreen => ChgBitKeeps(flags, GfxFullsc, value != 0, GfxDblbuf); ChgBitKeeps(flags, GfxFullsc, value != 0, GfxDrects);
    case SwSurface => ChgBitKeeps(flags, GfxSwsurf, value != 0, GfxDblbuf); ChgBitKeeps(flags, GfxSwsurf, value != 0, GfxDrects);
    case AsyncBlit => ChgBitKeeps(flags, GfxAsyncb, value != 0, GfxDblbuf); ChgBitKeeps(flags, GfxAsyncb, value != 0, GfxDrects);
    case HwPalette => ChgBitKeeps(flags, GfxHwpal, value != 0, GfxDblbuf); ChgBitKeeps(flags, GfxHwpal, value != 0, GfxDrects);
    case DirtyRectMerge => ChgBitKeeps(flags, GfxDrcmrg, value != 0, GfxDblbuf); ChgBitKeeps(flags, GfxDrcmrg, value != 0, GfxDrects);
    case DoubleBuffer =>
      var f := ChgBit(flags, GfxDblbuf, value != 0);
      ChgBitKeeps(flags, GfxDblbuf, value != 0, GfxDrects);
      if value != 0 {
        LastBufferingOptionWins(flags, value);
      }
    case DirtyRects =>
      var f := ChgBit(flags, GfxDrects, value != 0);
      ChgBitKeeps(flags, GfxDrects, value != 0, GfxDblbuf);
      if value != 0 {
        LastBufferingOptionWins(flags, value);
      }
  }

  // ---------------------------------------------------------------------
  //  Keyboard map, cartridge cache, debugger
  // ---------------------------------------------------------------------

  /** How the Intellicart loader may cache the cartridge (`-c`). */
  datatype CachePolicy = CacheDefault | CacheBankswitched | CacheNoBankswitched | CacheReadOnly | CacheNothing

  /** `-m`: a keyboard map outside 0..3 is ignored. */
  function KbdMapAfter(cur: int, value: int): (r: int)
    ensures 0 <= value <= 3 ==> r == value
    ensures !(0 <= value <= 3) ==> r == cur
  {
    if value >= 0 && value < 4 then value else cur
  }

  /** `-c`: 1, 2 and 3 pick a policy each; any other value caches
      bank-switched memory. */
  function CacheFor(value: int): (r: CachePolicy)
    ensures r != CacheDefault
    ensures r == CacheBankswitched <==> !(1 <= value <= 3)
  {
    match value
    case 1 => CacheNoBankswitched
    case 2 => CacheReadOnly
    case 3 => CacheNothing
    case _ => CacheBankswitched
  }

  /** The four values 0..3 select four different policies. */
  lemma CacheChoicesDistinct(a: int, b: int)
    requires 0 <= a <= 3 && 0 <= b <= 3 && a != b
    ensures CacheFor(a) != CacheFor(b)
  {
  }

  /** The command-line options modelled here, with their `atoi` value (1
      when the option has no argument). */
  datatype Opt =
    | Gfx(opt: GfxOption, value: int)
    | KbdMap(value: int)
    | IcartCache(value: int)
    | GuiMode
    | Debug

  /** The settings those options change. */
  datatype Flags = Flags(gfx: bv32, curKbd: int, cache: CachePolicy, guiMode: bool, debugging: bool)

  function OptAfter(f: Flags, o: Opt): Flags {
    match o
    case Gfx(opt, value) => f.(gfx := GfxFlagsAfter(f.gfx, opt, value))
    case KbdMap(value) => f.(curKbd := KbdMapAfter(f.curKbd, value))
    case IcartCache(value) => f.(cache := CacheFor(value))
    case GuiMode => f.(guiMode := true)
    case Debug => f.(debugging := true)
  }

  /** The options applied left to right. */
  function OptsAfter(f: Flags, opts: seq<Opt>): Flags
    decreases |opts|
  {
    if opts == [] then f else OptsAfter(OptAfter(f, opts[0]), opts[1..])
  }

  lemma {:induction false} OptsAfterAppend(f: Flags, opts: seq<Opt>, o: Opt)
    ensures OptsAfter(f, opts + [o]) == OptAfter(OptsAfter(f, opts), o)
    decreases |opts|
  {
    if opts != [] {
      assert (opts + [o])[1..] == opts[1..] + [o];
      OptsAfterAppend(OptAfter(f, opts[0]), opts[1..], o);
    }
  }

  /** The settings invariant the option loop keeps: a keyboard map in
      0..3 and at most one buffering mode. */
  predicate FlagsSound(f: Flags) {
    0 <= f.curKbd <= 3 && BufferingConsistent(f.gfx)
  }

  lemma {:induction false} OptsKeepSound(f: Flags, opts: seq<Opt>)
    requires FlagsSound(f)
    ensures FlagsSound(OptsAfter(f, opts))
    decreases |opts|
  {
    if opts != [] {
      OptKeepsSound(f, opts[0]);
      OptsKeepSound(OptAfter(f, opts[0]), opts[1..]);
    }
  }

  lemma OptKeepsSound(f: Flags, o: Opt)
    requires FlagsSound(f)
    ensures FlagsSound(OptAfter(f, o))
  {
    if o.Gfx? {
      GfxOptionKeepsBuffering(f.gfx, o.opt, o.value);
    }
  }

  /** After the option loop, gui mode turns the debugger off
      (`cfg->debugging = 0`). */
  function SettleDebugging(f: Flags): (r: Flags)
    ensures r.debugging <==> f.debugging && !f.guiMode
    ensures r.(debugging := f.debugging) == f
  {
    if f.guiMode then f.(debugging := false) else f
  }

  /** The part of `cfg` and of `cfg_init`'s locals the options change. */
  class Config {
    var gfxFlags: bv32
    var curKbd: int
    var cache: CachePolicy
    var guiMode: bool
    var debugging: bool

    function Snapshot(): Flags
      reads this
    {
      Flags(gfxFlags, curKbd, cache, guiMode, debugging)
    }

    /** The state after `memset(cfg, 0, ...)` and the defaults: windowed,
      single-buffered, no dirty rectangles, map 0, the default cache
      policy, no gui mode and no debugger. */
    constructor ()
      ensures Snapshot() == Flags(0, 0, CacheDefault, false, false)
      ensures FlagsSound(Snapshot())
    {
      gfxFlags := 0;
      curKbd := 0;
      cache := CacheDefault;
      guiMode := false;
      debugging := false;
    }

    /** One graphics case of the option `switch`. */
    method ApplyGfx(opt: GfxOption, value: int)
      modifies this
      ensures gfxFlags == GfxFlagsAfter(old(gfxFlags), opt, value)
      ensures curKbd == old(curKbd) && cache == old(cache) && guiMode == old(guiMode) && debugging == old(debugging)
    {
      var f := gfxFlags;
      match opt {
      case FullScreen => f := ChgBit(f, GfxFullsc, value != 0);
      case SwSurface => f := ChgBit(f, GfxSwsurf, value != 0);
      case DoubleBuffer =>
        f := ChgBit(f, GfxDblbuf, value != 0);
        if value != 0 {
          f := ChgBit(f, GfxDrects, false);
        }
      case AsyncBlit => f := ChgBit(f, GfxAsyncb, value != 0);
      case HwPalette => f := ChgBit(f, GfxHwpal, value != 0);
      case DirtyRects =>
        f := ChgBit(f, GfxDrects, value != 0);
        if value != 0 {
          f := ChgBit(f, GfxDblbuf, false);
        }
      case DirtyRectMerge => f := ChgBit(f, GfxDrcmrg, value != 0);
      }
      gfxFlags := f;
    }

    /** One case of the option `switch`. */
    method Apply(o: Opt)
      modifies this
      ensures Snapshot() == OptAfter(old(Snapshot()), o)
    {
      match o
      case Gfx(opt, value) =>
        ApplyGfx(opt, value);
      case KbdMap(value) =>
        if value >= 0 && value < 4 {
          curKbd := value;
        }
      case IcartCache(value) =>
        cache := CacheFor(value);
      case GuiMode =>
        guiMode := true;
      case Debug =>
        debugging := true;
    }

    /** The option loop, then the gui-mode override of the debugger. */
    method ParseOptions(opts: seq<Opt>)
      modifies this
      ensures Snapshot() == SettleDebugging(OptsAfter(old(Snapshot()), opts))
      ensures old(FlagsSound(Snapshot())) ==> FlagsSound(Snapshot())
      ensures guiMode ==> !debugging
    {
      ghost var start := Snapshot();
      var i := 0;
      while i < |opts|
        invariant 0 <= i <= |opts|
        invariant Snapshot() == OptsAfter(start, opts[..i])
      {
        Apply(opts[i]);
        OptsAfterAppend(start, opts[..i], opts[i]);
        assert opts[..i + 1] == opts[..i] + [opts[i]];
        i := i + 1;
      }
      assert opts[..i] == opts;
      if FlagsSound(start) {
        OptsKeepSound(start, opts);
      }
      if guiMode {
        debugging := false;
      }
    }
  }

  // ---------------------------------------------------------------------
  //  INTV2PC ports
  // ---------------------------------------------------------------------

  /** `i2pc_ports`: the I/O port selected by INTV2PC port number 0..3;
      0 means no INTV2PC. */
  const I2pcPorts: seq<int> := [0x0, 0x378, 0x278, 0x3BC]

  datatype PortError = PortOutOfRange | SamePort

  /** The port check as cfg.c writes it: only numbers above 3 are out of
      range. */
  function PortsCheckAsWritten(p0: int, p1: int): Option<PortError> {
    if p0 > 3 || p1 > 3 then Some(PortOutOfRange)
    else if p0 != 0 && p0 == p1 then Some(SamePort)
    else None
  }

  /** A negative port number, such as `--i2pc0=-1`, passes that check and
      is then used to index the four-entry port table; the corrected check
      rejects it as out of range. */
  lemma NegativePortPassesCheck()
    ensures PortsCheckAsWritten(-1, 0).None?
    ensures !(0 <= -1 < |I2pcPorts|)
    ensures MapPorts(-1, 0) == PortsRejected(PortOutOfRange)
  {
  }

  /** The check as its error message describes it (0 to disable, 1..3 for
      LPT1..LPT3), followed by the table lookup. */
  function MapPorts(p0: int, p1: int): (r: PortMapping)
    ensures r.Ports? <==> 0 <= p0 <= 3 && 0 <= p1 <= 3 && (p0 == 0 || p0 != p1)
    ensures r.Ports? ==> r.port0 in I2pcPorts && r.port1 in I2pcPorts
    ensures r.Ports? ==> (r.port0 == 0 <==> p0 == 0) && (r.port1 == 0 <==> p1 == 0)
    ensures r.Ports? && r.port0 != 0 ==> r.port0 != r.port1
  {
    if p0 < 0 || p0 > 3 || p1 < 0 || p1 > 3 then PortsRejected(PortOutOfRange)
    else if p0 != 0 && p0 == p1 then PortsRejected(SamePort)
    else Ports(I2pcPorts[p0], I2pcPorts[p1])
  }

  datatype PortMapping = Ports(port0: int, port1: int) | PortsRejected(why: PortError)

  /** For port numbers within the table the corrected check agrees with
      the one cfg.c makes. */
  lemma MapPortsAgreesInRange(p0: int, p1: int)
    requires p0 >= 0 && p1 >= 0
    ensures MapPorts(p0, p1).Ports? <==> PortsCheckAsWritten(p0, p1).None?
    ensures MapPorts(p0, p1).PortsRejected? ==> Some(MapPorts(p0, p1).why) == PortsCheckAsWritten(p0, p1)
  {
  }

  // ---------------------------------------------------------------------
  //  Cartridge database, sound, executable directory
  // ---------------------------------------------------------------------

  /** What `find_cart_name` knows about the game: its preferred ECS and
      Intellivoice settings, or `None` when the game is not in the
      database. */
  function CartDefaults(ecs: int, ivc: int, known: Option<(int, int)>): (r: (int, int))
    ensures ecs != -1 ==> r.0 == ecs
    ensures ivc != -1 ==> r.1 == ivc
    ensures known.None? ==> r == (ecs, ivc)
    ensures known.Some? && ecs == -1 ==> r.0 == known.value.0
    ensures known.Some? && ivc == -1 ==> r.1 == known.value.1
  {
    match known
    case None => (ecs, ivc)
    case Some((e, v)) => (if ecs == -1 then e else ecs, if ivc == -1 then v else ivc)
  }

  /** `audio_rate` after `snd_init`: sound that fails to start is switched
      off, with a warning, rather than stopping the program. */
  function AudioRateAfter(rate: int, soundOk: bool): (r: int)
    ensures r == 0 || r == rate
    ensures r != 0 <==> rate != 0 && soundOk
  {
    if rate != 0 && !soundOk then 0 else rate
  }

  /** The executable's directory: `argv[0]` cut at its last path separator,
      or "." when it has none. */
  function ExeDir(argv0: string, sep: char): (r: string)
    ensures sep !in argv0 ==> r == "."
    ensures sep in argv0 ==> |r| < |argv0| && r <= argv0 && argv0[|r|] == sep && sep !in argv0[|r| + 1..]
  {
    if sep in argv0 then CutAtLast(argv0, sep) else "."
  }
}
