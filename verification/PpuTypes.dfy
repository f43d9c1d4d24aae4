/** Registers, internal state and memory of the picture unit, as plain values.
  */
module PpuTypes {
  import opened Common

  const DOTS_PER_LINE := 341
  const LINE_WIDTH := 256
  const LINE_TILES := 32
  const FRAME_HEIGHT := 240

  const POST_RENDER_LINE := 240
  const VBLANK_LINE := 241
  const PRE_RENDER_LINE := 261
  const VBLANK_END := 262

  const TOGGLE_DELAY := 3

  /** The scroll registers "v" and "t": tile column and row, nametable, row inside the tile. */
  datatype Vram = Vram(tileX: nat, tileY: nat, ntX: nat, ntY: nat, fineY: nat)

  ghost predicate ValidVram(v: Vram) {
    v.tileX < 32 && v.tileY < 32 && v.ntX < 2 && v.ntY < 2 && v.fineY < 8
  }

  /** What the picture unit reads and nobody changes while cycles are executed. */
  datatype Mem = Mem(
    /** Four nametable windows: 960 tile numbers, then 64 attribute bytes. */
    names: seq<seq<u8>>,
    /** Two pattern windows: 256 tiles of 8 low and 8 high bytes. */
    patterns: seq<seq<u8>>,
    /** Four background palettes, then four sprite palettes. */
    palette: seq<u8>,
    oam: seq<u8>,
    noSpriteLimit: bool)

  ghost predicate ValidMem(mem: Mem) {
    && |mem.names| == 4 && (forall i :: 0 <= i < 4 ==> |mem.names[i]| == 1024)
    && |mem.patterns| == 2 && (forall i :: 0 <= i < 2 ==> |mem.patterns[i]| == 4096)
    && |mem.palette| == 32 && |mem.oam| == 256
  }

  datatype SpriteZero = SpriteZero(hit: bool, x: u8)

  /** What only register accesses change. */
  datatype Regs = Regs(ctrl: u8, mask: u8, tmp: Vram, fineX: nat, secondWrite: bool, greyscale: bool)

  /** The status byte: three bits of the machine and two the source invented for a read of the flag
    * in the very dot it is set and for an NMI on its way.
    */
  datatype Status = Status(vblank: bool, sprite0: bool, overflow: bool, readRace: bool, nmi: bool)

  /** The NMIs a picture unit has raised, and whether the last vertical blank raised one. */
  datatype NmiLog = NmiLog(raised: nat, blank: bool)

  /** Everything a picture unit holds, plus the frames it has shown and the NMIs it has raised.
    *
    * The pending bit of the status and the latch behind it appear as the one question the CPU asks:
    * status.nmi says that an NMI has been raised that was not served yet.
    */
  datatype Ppu = Ppu(
    reg: Regs, status: Status, oamAddr: u8, cur: Vram,
    scanLine: nat, dot: nat, oddFrame: bool,
    lastDot: nat, rendToggleDot: nat,
    lineSprites: seq<u8>, lastTileX: nat, sp0: SpriteZero,
    screen: seq<u8>, frames: seq<seq<u8>>, nmis: NmiLog)
  {
    function WithSprite0(): Ppu { this.(status := status.(sprite0 := true)) }

    predicate NmiEnabled() { reg.ctrl / 128 == 1 }
    function SpritePattern(): (t: nat) ensures t < 2 { reg.ctrl / 8 % 2 }
    function BackgroundPattern(): (t: nat) ensures t < 2 { reg.ctrl / 16 % 2 }
    predicate TallSprites() { reg.ctrl / 32 % 2 == 1 }

    predicate BgLeft() { reg.mask / 2 % 2 == 1 }
    predicate SpLeft() { reg.mask / 4 % 2 == 1 }
    predicate BgOn() { reg.mask / 8 % 2 == 1 }
    predicate SpOn() { reg.mask / 16 % 2 == 1 }

    /** Rendering as the mask register says. */
    predicate Enabled() { BgOn() || SpOn() }

    /** Rendering as the pixel pipeline sees it at a dot: a toggle takes three dots to arrive. */
    predicate RenderingAt(at: nat) {
      if rendToggleDot == 0 || at >= rendToggleDot + TOGGLE_DELAY then Enabled() else !Enabled()
    }
  }

  ghost predicate ValidPpu(p: Ppu) {
    && ValidVram(p.cur) && ValidVram(p.reg.tmp) && p.reg.fineX < 8
    && p.scanLine <= VBLANK_END
    && |p.lineSprites| == LINE_WIDTH && p.lastTileX <= LINE_TILES
    && |p.screen| == LINE_WIDTH * FRAME_HEIGHT
  }

  /** Between calls the picture unit has caught up with its dot counter. */
  ghost predicate AtRest(p: Ppu) {
    && ValidPpu(p) && p.lastDot == p.dot < DOTS_PER_LINE
    && (p.scanLine == VBLANK_END ==> p.dot == 0)
  }
}
