/** The configuration console's command handlers and the per-core frame counter.

    The handlers run against one shared configuration record. `level`, `spin` and `hid`
    each check their argument count, then the range of the parsed value or the result of
    the prefix matcher. Only after both checks pass do they write their field(s) and
    notify the change exactly once; on any failure they print usage and change nothing.
    `display` only reads the record and accepts no argument or one section name.
    `save` and `factory` take no arguments and check nothing.

    Console collaborators whose code is not part of this model become inputs or events:
    - the result of `cli_match_prefix` is the `matched` argument (a negative value for
      no match or an ambiguous token, else an index into the choices);
    - the result of `cli_extract_non_neg_int` is the `parsed` argument;
    - each `config_changed()` call a handler makes itself increments `changes`
      (whatever `config_factory_reset` does inside `config.c` is not counted);
    - printed output, `save_request` and `config_factory_reset` are appended to `log`
      as events. */
module Commands {
  import Config

  type U32 = x: int | 0 <= x < 0x1_0000_0000

  const TWO_TO_32 := 0x1_0000_0000
  /** Length of one frame-rate window, in microseconds. */
  const FPS_WINDOW := 1000000

  /** What a handler does that is visible outside the record. The Show events carry the
      values the display helpers print; their wording is not modelled. */
  datatype Event =
    | Usage
    | ShowLight(level: int)
    | ShowSpin(unitsPerTurn: int)
    | ShowHid(joyOn: bool, nkroOn: bool)
    | SaveRequested(immediate: bool)
    | FactoryReset
    | FactoryResetDone

  datatype Handler = Display | Level | Spin | Hid | Save | Factory

  datatype Registration = Registration(name: string, handler: Handler, help: string)

  /** The commands registered at start-up, in registration order. */
  function Registrations(): (r: seq<Registration>)
    ensures |r| == 6
    ensures r[0].name == "display" && r[0].handler == Display
    ensures r[1].name == "level" && r[1].handler == Level
    ensures r[2].name == "spin" && r[2].handler == Spin
    ensures r[3].name == "hid" && r[3].handler == Hid
    ensures r[4].name == "save" && r[4].handler == Save
    ensures r[5].name == "factory" && r[5].handler == Factory
  {
    [ Registration("display", Display, "Display all config."),
      Registration("level", Level, "Set LED brightness level."),
      Registration("spin", Spin, "Set spin rate."),
      Registration("hid", Hid, "Set HID mode."),
      Registration("save", Save, "Save config to flash."),
      Registration("factory", Factory, "Reset everything to default.") ]
  }

  /** No two registrations share a name, so every name resolves to one command. */
  lemma RegisteredNamesDistinct()
    ensures forall i, j :: 0 <= i < j < |Registrations()| ==> Registrations()[i].name != Registrations()[j].name
  {
  }

  /** Every handler is reachable under exactly one registered name. */
  lemma EveryHandlerRegisteredOnce(h: Handler)
    ensures exists i :: 0 <= i < |Registrations()| && Registrations()[i].handler == h
    ensures forall i, j ::
      (0 <= i < |Registrations()| && 0 <= j < |Registrations()| &&
       Registrations()[i].handler == h && Registrations()[j].handler == h) ==> i == j
  {
    var r := Registrations();
    match h
    case Display => assert r[0].handler == h;
    case Level => assert r[1].handler == h;
    case Spin => assert r[2].handler == h;
    case Hid => assert r[3].handler == h;
    case Save => assert r[4].handler == h;
    case Factory => assert r[5].handler == h;
  }

  /** The state the console handlers share: the configuration record, the units-per-turn
      setting, the number of change notifications, and the log of output events. */
  class Console {
    var cfg: Config.MusecCfg
    /** `spin.units_per_turn`. The handlers read and write it, but `musec_cfg_t` declares
        no `spin` member, so this value has no place in the persisted layout. */
    var unitsPerTurn: nat
    var changes: nat
    var log: seq<Event>
    /** The compiled-in default image that a factory reset restores (it lives in `config.c`). */
    const factoryCfg: Config.MusecCfg
    const factoryUnits: nat

    ghost predicate Valid()
      reads this
    {
      cfg.WellFormed() && factoryCfg.WellFormed()
    }

    constructor (cfg0: Config.MusecCfg, units0: nat, factoryCfg: Config.MusecCfg, factoryUnits: nat)
      requires cfg0.WellFormed() && factoryCfg.WellFormed()
      ensures Valid()
      ensures cfg == cfg0 && unitsPerTurn == units0
      ensures this.factoryCfg == factoryCfg && this.factoryUnits == factoryUnits
      ensures changes == 0 && log == []
    {
      cfg := cfg0;
      unitsPerTurn := units0;
      this.factoryCfg := factoryCfg;
      this.factoryUnits := factoryUnits;
      changes := 0;
      log := [];
    }

    /** `disp_light`: shows the level, which is byte 54 of the stored image. */
    function LightView(): (e: Event)
      requires Valid()
      reads this
      ensures e == ShowLight(Config.Encode(cfg)[54])
    {
      Config.Layout(cfg);
      ShowLight(cfg.light.level)
    }

    /** `disp_spin`: shows the units per turn, which has no place in the stored image. */
    function SpinView(): Event
      reads this
    {
      ShowSpin(unitsPerTurn)
    }

    /** `disp_hid`: a mode is shown "on" when its nibble of byte 82 of the stored image is
        not zero. */
    function HidView(): (e: Event)
      requires Valid()
      reads this
      ensures e == ShowHid(Config.LowNibble(Config.Encode(cfg)[82]) != 0, Config.HighNibble(Config.Encode(cfg)[82]) != 0)
    {
      Config.Layout(cfg);
      ShowHid(cfg.hid.joy != 0, cfg.hid.nkro != 0)
    }

    /** `display [light|spin|hid]`: shows sections, never writes the record. */
    method HandleDisplay(argc: nat, matched: int)
      requires Valid()
      modifies this`log
      ensures Valid()
      ensures cfg == old(cfg) && unitsPerTurn == old(unitsPerTurn) && changes == old(changes)
      ensures argc > 1 ==> log == old(log) + [Usage]
      ensures argc == 0 ==> log == old(log) + [LightView(), SpinView(), HidView()]
      ensures argc == 1 ==> log == old(log) + [
        if matched == 0 then LightView()
        else if matched == 1 then SpinView()
        else if matched == 2 then HidView()
        else Usage]
    {
      if argc > 1 {
        log := log + [Usage];
        return;
      }
      if argc == 0 {
        log := log + [LightView()];
        log := log + [SpinView()];
        log := log + [HidView()];
        return;
      }
      if matched == 0 {
        log := log + [LightView()];
      } else if matched == 1 {
        log := log + [SpinView()];
      } else if matched == 2 {
        log := log + [HidView()];
      } else {
        log := log + [Usage];
      }
    }

    /** `level <0..255>`: sets the LED brightness level. */
    method HandleLevel(argc: nat, parsed: int)
      requires Valid()
      modifies this`cfg, this`changes, this`log
      ensures Valid()
      ensures unitsPerTurn == old(unitsPerTurn)
      ensures argc == 1 && 0 <= parsed <= 255 ==>
        cfg == old(cfg).(light := old(cfg).light.(level := parsed)) &&
        changes == old(changes) + 1 && log == old(log) + [ShowLight(parsed)]
      ensures !(argc == 1 && 0 <= parsed <= 255) ==>
        cfg == old(cfg) && changes == old(changes) && log == old(log) + [Usage]
    {
      if argc != 1 {
        log := log + [Usage];
        return;
      }
      if parsed < 0 || parsed > 255 {
        log := log + [Usage];
        return;
      }
      cfg := cfg.(light := cfg.light.(level := parsed));
      changes := changes + 1;
      log := log + [LightView()];
    }

    /** `spin <20..255>`: sets the number of units per turn. */
    method HandleSpin(argc: nat, parsed: int)
      requires Valid()
      modifies this`unitsPerTurn, this`changes, this`log
      ensures Valid()
      ensures cfg == old(cfg)
      ensures argc == 1 && 20 <= parsed <= 255 ==>
        unitsPerTurn == parsed && changes == old(changes) + 1 && log == old(log) + [ShowSpin(parsed)]
      ensures !(argc == 1 && 20 <= parsed <= 255) ==>
        unitsPerTurn == old(unitsPerTurn) && changes == old(changes) && log == old(log) + [Usage]
    {
      if argc != 1 {
        log := log + [Usage];
        return;
      }
      if parsed < 20 || parsed > 255 {
        log := log + [Usage];
        return;
      }
      unitsPerTurn := parsed;
      changes := changes + 1;
      log := log + [SpinView()];
    }

    /** `hid <joy|nkro|both>`: selects the HID report modes. The matched index picks
        joystick only (0), NKRO only (1) or both (2). */
    method HandleHid(argc: nat, matched: int)
      requires Valid()
      modifies this`cfg, this`changes, this`log
      ensures Valid()
      ensures unitsPerTurn == old(unitsPerTurn)
      ensures argc == 1 && matched >= 0 ==>
        cfg == old(cfg).(hid := cfg.hid) && changes == old(changes) + 1 &&
        log == old(log) + [ShowHid(cfg.hid.joy != 0, cfg.hid.nkro != 0)]
      ensures argc == 1 && matched == 0 ==> cfg.hid == Config.Hid(1, 0)
      ensures argc == 1 && matched == 1 ==> cfg.hid == Config.Hid(0, 1)
      ensures argc == 1 && matched == 2 ==> cfg.hid == Config.Hid(1, 1)
      ensures argc == 1 && matched > 2 ==> cfg.hid == Config.Hid(0, 0)
      ensures !(argc == 1 && matched >= 0) ==>
        cfg == old(cfg) && changes == old(changes) && log == old(log) + [Usage]
    {
      if argc != 1 {
        log := log + [Usage];
        return;
      }
      if matched < 0 {
        log := log + [Usage];
        return;
      }
      // The two bit-field writes happen back to back; no other code observes the state between them.
      cfg := cfg.(hid := Config.Hid(if matched == 0 || matched == 2 then 1 else 0,
                                    if matched == 1 || matched == 2 then 1 else 0));
      changes := changes + 1;
      log := log + [HidView()];
    }

    /** `save`: asks for an immediate write of the record. */
    method HandleSave()
      requires Valid()
      modifies this`log
      ensures Valid()
      ensures cfg == old(cfg) && unitsPerTurn == old(unitsPerTurn) && changes == old(changes)
      ensures log == old(log) + [SaveRequested(true)]
    {
      log := log + [SaveRequested(true)];
    }

    /** `factory`: restores the default image, then confirms. */
    method HandleFactoryReset()
      requires Valid()
      modifies this`cfg, this`unitsPerTurn, this`log
      ensures Valid()
      ensures cfg == factoryCfg && unitsPerTurn == factoryUnits && changes == old(changes)
      ensures log == old(log) + [FactoryReset, FactoryResetDone]
    {
      cfg := factoryCfg;
      unitsPerTurn := factoryUnits;
      log := log + [FactoryReset];
      log := log + [FactoryResetDone];
    }
  }

  // ---------------------------------------------------------------------------
  // Console sessions: what a sequence of handler calls promises

  /** `spin 19` is refused and `spin 20`, `spin 255` are stored: both bounds are inclusive. */
  method SpinBoundaries(cfg: Config.MusecCfg, units0: nat) returns (after19: nat, after20: nat, after255: nat, notified: nat)
    requires cfg.WellFormed()
    ensures after19 == units0 && after20 == 20 && after255 == 255 && notified == 2
  {
    var con := new Console(cfg, units0, cfg, units0);
    con.HandleSpin(1, 19);
    after19 := con.unitsPerTurn;
    con.HandleSpin(1, 20);
    after20 := con.unitsPerTurn;
    con.HandleSpin(1, 255);
    after255 := con.unitsPerTurn;
    notified := con.changes;
  }

  /** `level 256` and `level -1` leave the level alone and print usage; `level 255` stores 255. */
  method LevelBoundaries(cfg: Config.MusecCfg) returns (after256: int, afterMinus1: int, after255: int, log: seq<Event>)
    requires cfg.WellFormed()
    ensures after256 == afterMinus1 == cfg.light.level && after255 == 255
    ensures log == [Usage, Usage, ShowLight(255)]
  {
    var con := new Console(cfg, 20, cfg, 20);
    con.HandleLevel(1, 256);
    after256 := con.cfg.light.level;
    con.HandleLevel(1, -1);
    afterMinus1 := con.cfg.light.level;
    con.HandleLevel(1, 255);
    after255 := con.cfg.light.level;
    log := con.log;
  }

  /** `hid b`, which the matcher resolves to "both" (index 2), turns both modes on and
      leaves the rest of the record as it was. */
  method HidBoth(cfg: Config.MusecCfg) returns (after: Config.MusecCfg, log: seq<Event>)
    requires cfg.WellFormed()
    ensures after == cfg.(hid := Config.Hid(1, 1))
    ensures log == [ShowHid(true, true)]
  {
    var con := new Console(cfg, 20, cfg, 20);
    con.HandleHid(1, 2);
    after := con.cfg;
    log := con.log;
  }

  /** `factory` followed by `display` shows exactly the default values, and the whole
      record then has the default byte image. */
  method FactoryThenDisplay(cfg: Config.MusecCfg, units: nat, factoryCfg: Config.MusecCfg, factoryUnits: nat)
    returns (image: seq<Config.Byte>, log: seq<Event>)
    requires cfg.WellFormed() && factoryCfg.WellFormed()
    ensures image == Config.Encode(factoryCfg)
    ensures log == [FactoryReset, FactoryResetDone, ShowLight(factoryCfg.light.level),
                    ShowSpin(factoryUnits), ShowHid(factoryCfg.hid.joy != 0, factoryCfg.hid.nkro != 0)]
  {
    var con := new Console(cfg, units, factoryCfg, factoryUnits);
    con.HandleFactoryReset();
    con.HandleDisplay(0, -1);
    image := Config.Encode(con.cfg);
    log := con.log;
  }

  // ---------------------------------------------------------------------------
  // Frame counter

  /** `now - last` on `uint32_t`: the time elapsed since `last`, correct across one wrap of the timer. */
  function ElapsedU32(now: U32, last: U32): (d: int)
    ensures 0 <= d < TWO_TO_32
    ensures (last + d) % TWO_TO_32 == now
  {
    (now - last) % TWO_TO_32
  }

  lemma ElapsedAcrossWrap(now: U32, last: U32)
    requires now < last
    ensures ElapsedU32(now, last) == now + TWO_TO_32 - last
  {
  }

  /** The per-core slots of `fps_count`: frames counted in the current window, the start
      of that window, and the frame count of the last complete window. Index 0 and 1
      are the two cores; each core only ever touches its own index. */
  class FpsCounter {
    const counter: array<int>
    const last: array<U32>
    const fps: array<int>

    ghost predicate Valid()
      reads this
    {
      counter.Length == 2 && last.Length == 2 && fps.Length == 2 && counter != fps
    }

    constructor ()
      ensures Valid() && fresh(counter) && fresh(last) && fresh(fps)
      ensures counter[..] == [0, 0] && last[..] == [0, 0] && fps[..] == [0, 0]
    {
      counter := new int[2](_ => 0);
      last := new U32[2](_ => 0);
      fps := new int[2](_ => 0);
    }

    /** One frame on core `core` at time `now` (microseconds). */
    method Count(core: nat, now: U32)
      requires Valid() && core < 2
      modifies counter, last, fps
      ensures Valid()
      ensures ElapsedU32(now, old(last[core])) < FPS_WINDOW ==>
        counter[core] == old(counter[core]) + 1 && last[core] == old(last[core]) && fps[core] == old(fps[core])
      ensures ElapsedU32(now, old(last[core])) >= FPS_WINDOW ==>
        fps[core] == old(counter[core]) + 1 && counter[core] == 0 && last[core] == now
      ensures counter[1 - core] == old(counter[1 - core])
      ensures last[1 - core] == old(last[1 - core])
      ensures fps[1 - core] == old(fps[1 - core])
    {
      counter[core] := counter[core] + 1;
      if ElapsedU32(now, last[core]) < FPS_WINDOW {
        return;
      }
      last[core] := now;
      fps[core] := counter[core];
      counter[core] := 0;
    }
  }

  /** Within the first window, any `n` frames on core 0 followed by any `m` frames on core 1
      leave exactly `n` and `m` in the counters: neither core's frames reach the other
      core's slots, and nothing is published before a full window has passed. */
  method FpsFramesWithinWindow(n: nat, m: nat, t: nat) returns (counts: seq<int>, rates: seq<int>, starts: seq<int>)
    requires t < FPS_WINDOW
    ensures counts == [n, m] && rates == [0, 0] && starts == [0, 0]
  {
    var f := new FpsCounter();
    var i := 0;
    while i < n
      invariant 0 <= i <= n && f.Valid()
      invariant f.counter[..] == [i, 0] && f.last[..] == [0, 0] && f.fps[..] == [0, 0]
    {
      f.Count(0, t);
      i := i + 1;
    }
    var j := 0;
    while j < m
      invariant 0 <= j <= m && f.Valid()
      invariant f.counter[..] == [n, j] && f.last[..] == [0, 0] && f.fps[..] == [0, 0]
    {
      f.Count(1, t);
      j := j + 1;
    }
    counts := f.counter[..];
    rates := f.fps[..];
    starts := f.last[..];
  }

  /** One run across a window boundary: core 0 counts two frames and core 1 one frame
      within the first window; then, once a full window has passed on core 0, its frame
      count is published and its counter restarts, while core 1's slots are left alone. */
  method FpsCoresIsolated() returns (counts: seq<int>, rates: seq<int>, starts: seq<int>)
    ensures counts == [0, 1] && rates == [3, 0] && starts == [FPS_WINDOW, 0]
  {
    var f := new FpsCounter();
    f.Count(0, 10);
    f.Count(1, 20);
    f.Count(0, 30);
    f.Count(0, FPS_WINDOW);
    counts := f.counter[..];
    rates := f.fps[..];
    starts := f.last[..];
  }
}
