/** The driver of the GTEM cell's RF switch (test/conf/sw_gtem.py).

    The switch is commanded with strings of relay settings, each written
    "R<relay>P<position>". Relay 1 picks the amplifier path (position 1 the
    LF path, 2 the HF path, 4 direct), relay 2 the output (position 1 the
    GTEM cell, 0 the termination); relays 3 and 4 are always sent as
    position 1 and 0. */
module SwGtem {

  datatype Option<T> = None | Some(value: T) {
    function GetOr(default: T): T {
      match this
      case Some(v) => v
      case None => default
    }
  }

  // The relay settings the constructor stores.
  const R1_LF: string := "R1P1"
  const R1_HF: string := "R1P2"
  const R1_DIRECT: string := "R1P4"
  const R2_TERM: string := "R2P0"
  const R2_GTEM: string := "R2P1"
  const R34_REST: string := "R3P1R4P0"

  /** The crossover frequency used when the configuration names none. */
  const DEFAULT_SWFREQ: real := 1000000000.0

  /** The configured output, after fuzzy matching against term/gtem. */
  datatype Output = Term | Gtem

  /** The 'init_value' entries that Init reads; None is a missing key. */
  datatype InitValues = InitValues(output: Option<Output>, swfreq: Option<real>)

  /** One relay setting of a switch command. */
  datatype Setting = Setting(relay: nat, position: nat)

  predicate IsDigit(c: char) {
    '0' <= c <= '9'
  }

  function DigitValue(c: char): (n: nat)
    requires IsDigit(c)
    ensures n < 10
  {
    c as int - '0' as int
  }

  function DigitChar(n: nat): (c: char)
    requires n < 10
    ensures IsDigit(c) && DigitValue(c) == n
  {
    ('0' as int + n) as char
  }

  /** Settings that fit the one-digit command syntax. */
  predicate Writable(ss: seq<Setting>) {
    forall i :: 0 <= i < |ss| ==> ss[i].relay < 10 && ss[i].position < 10
  }

  /** Writes one setting as an "R<relay>P<position>" group. */
  function Group(s: Setting): (g: string)
    requires s.relay < 10 && s.position < 10
    ensures |g| == 4
  {
    ['R', DigitChar(s.relay), 'P', DigitChar(s.position)]
  }

  /** Writes settings in the switch's command syntax. */
  function Render(ss: seq<Setting>): (cmd: string)
    requires Writable(ss)
    ensures |cmd| == 4 * |ss|
  {
    if ss == [] then "" else Group(ss[0]) + Render(ss[1..])
  }

  /** The command starts with a well-formed "R<digit>P<digit>" group. */
  predicate StartsGroup(cmd: string) {
    |cmd| >= 4 && cmd[0] == 'R' && IsDigit(cmd[1]) && cmd[2] == 'P' && IsDigit(cmd[3])
  }

  /** The setting written by the command's first group. */
  function FirstSetting(cmd: string): Setting
    requires StartsGroup(cmd)
  {
    Setting(DigitValue(cmd[1]), DigitValue(cmd[3]))
  }

  /** Reads a switch command back as relay settings; None when the text is
      not a sequence of "R<digit>P<digit>" groups. */
  function Decode(cmd: string): Option<seq<Setting>>
    decreases |cmd|
  {
    if cmd == [] then Some([])
    else if StartsGroup(cmd) then
      match Decode(cmd[4..])
      case None => None
      case Some(rest) => Some([FirstSetting(cmd)] + rest)
    else None
  }

  /** The tail of writable settings is writable. */
  lemma WritableTail(ss: seq<Setting>)
    requires Writable(ss) && ss != []
    ensures Writable(ss[1..])
  {
    forall i | 0 <= i < |ss[1..]| ensures ss[1..][i].relay < 10 && ss[1..][i].position < 10 {
      assert ss[1..][i] == ss[i + 1];
    }
  }

  /** A command that starts with a written group decodes that group first. */
  lemma DecodeGroupThen(s: Setting, rest: string, sr: seq<Setting>)
    requires s.relay < 10 && s.position < 10 && Decode(rest) == Some(sr)
    ensures Decode(Group(s) + rest) == Some([s] + sr)
  {
    var cmd := Group(s) + rest;
    assert cmd[4..] == rest;
    assert StartsGroup(cmd) && FirstSetting(cmd) == s;
  }

  /** Written settings followed by a well-formed command read back as the
      settings followed by that command's settings. */
  lemma {:induction false} DecodeRenderThen(ss: seq<Setting>, b: string, sb: seq<Setting>)
    requires Writable(ss) && Decode(b) == Some(sb)
    ensures Decode(Render(ss) + b) == Some(ss + sb)
    decreases |ss|
  {
    if ss == [] {
      assert Render(ss) + b == b;
      assert ss + sb == sb;
    } else {
      WritableTail(ss);
      DecodeRenderThen(ss[1..], b, sb);
      assert Render(ss) + b == Group(ss[0]) + (Render(ss[1..]) + b);
      DecodeGroupThen(ss[0], Render(ss[1..]) + b, ss[1..] + sb);
      assert ss + sb == [ss[0]] + (ss[1..] + sb);
    }
  }

  /** Reading back what Render wrote gives the same settings. */
  lemma DecodeRender(ss: seq<Setting>)
    requires Writable(ss)
    ensures Decode(Render(ss)) == Some(ss)
  {
    DecodeRenderThen(ss, "", []);
    assert Render(ss) + "" == Render(ss) && ss + [] == ss;
  }

  /** The position relay 2 takes for an output. */
  function OutputPosition(out: Output): nat {
    if out == Gtem then 1 else 0
  }

  /** The relay settings of a route: relay 1 to a path, relay 2 to the output. */
  function RouteSettings(path: nat, out: Output): seq<Setting> {
    [Setting(1, path), Setting(2, OutputPosition(out))]
  }

  /** The LF and HF route prefixes Init builds. */
  datatype Routes = Routes(lf: string, hf: string)

  /** Init's routes: the LF route puts relay 1 on path 1 and the HF route
      on path 2; both put relay 2 on the output's position. */
  function RoutesFor(out: Output): (r: Routes)
    ensures r.lf == Render(RouteSettings(1, out)) && r.hf == Render(RouteSettings(2, out))
    ensures Decode(r.lf) == Some(RouteSettings(1, out)) && Decode(r.hf) == Some(RouteSettings(2, out))
  {
    var r2 := if out == Gtem then R2_GTEM else R2_TERM;
    assert R1_LF + r2 == Render(RouteSettings(1, out));
    assert R1_HF + r2 == Render(RouteSettings(2, out));
    DecodeRender(RouteSettings(1, out));
    DecodeRender(RouteSettings(2, out));
    Routes(R1_LF + r2, R1_HF + r2)
  }

  /** The command SetFreq sends for frequency f. */
  function SetFreqCommand(routes: Routes, swfreq: real, f: real): string {
    (if f <= swfreq then routes.lf else routes.hf) + R34_REST
  }

  /** The fixed suffix sets relay 3 to position 1 and relay 4 to position 0. */
  lemma RestSettings()
    ensures Decode(R34_REST) == Some([Setting(3, 1), Setting(4, 0)])
  {
    assert R34_REST == Render([Setting(3, 1), Setting(4, 0)]);
    DecodeRender([Setting(3, 1), Setting(4, 0)]);
  }

  /** What SetFreq's command does to the relays: relay 1 takes the LF path
      up to and including the crossover and the HF path above it, relay 2
      the configured output, relays 3 and 4 positions 1 and 0. */
  lemma SetFreqSettings(out: Output, swfreq: real, f: real)
    ensures Decode(SetFreqCommand(RoutesFor(out), swfreq, f))
         == Some([Setting(1, if f <= swfreq then 1 else 2), Setting(2, OutputPosition(out)),
                  Setting(3, 1), Setting(4, 0)])
  {
    var path := if f <= swfreq then 1 else 2;
    assert SetFreqCommand(RoutesFor(out), swfreq, f) == Render(RouteSettings(path, out)) + R34_REST;
    RestSettings();
    DecodeRenderThen(RouteSettings(path, out), R34_REST, [Setting(3, 1), Setting(4, 0)]);
    assert RouteSettings(path, out) + [Setting(3, 1), Setting(4, 0)]
        == [Setting(1, path), Setting(2, OutputPosition(out)), Setting(3, 1), Setting(4, 0)];
  }

  /** The command Quit sends: relay 1 direct, relay 2 terminated. */
  function QuitCommand(): (cmd: string)
    ensures cmd == "R1P4R2P0R3P1R4P0"
    ensures Decode(cmd) == Some([Setting(1, 4), Setting(2, 0), Setting(3, 1), Setting(4, 0)])
  {
    assert R1_DIRECT + R2_TERM == Render([Setting(1, 4), Setting(2, 0)]);
    RestSettings();
    DecodeRenderThen([Setting(1, 4), Setting(2, 0)], R34_REST, [Setting(3, 1), Setting(4, 0)]);
    assert R1_DIRECT + R2_TERM + R34_REST == (R1_DIRECT + R2_TERM) + R34_REST;
    assert [Setting(1, 4), Setting(2, 0)] + [Setting(3, 1), Setting(4, 0)]
        == [Setting(1, 4), Setting(2, 0), Setting(3, 1), Setting(4, 0)];
    R1_DIRECT + R2_TERM + R34_REST
  }

  class SWController {
    var out: Output
    var lf: Option<string>
    var hf: Option<string>
    var swfreq: real
    var error: int
    /** Whether the base driver attached an instrument. */
    var dev: bool
    /** Every command that reached the instrument, oldest first. */
    var sent: seq<string>

    /** After Init the route prefixes are those of the configured output. */
    ghost predicate Ready()
      reads this
    {
      lf.Some? && hf.Some? && Routes(lf.value, hf.value) == RoutesFor(out)
    }

    constructor ()
      ensures lf == None && hf == None && error == 0
      ensures !dev && sent == []
    {
      lf, hf := None, None;
      error := 0;
      dev := false;
      sent := [];
      out := Term;
      swfreq := DEFAULT_SWFREQ;
    }

    /** Sends cmd when an instrument is attached; reports whether it was
        sent (the instrument's answer is not modelled). */
    method Query(cmd: string) returns (answered: bool)
      modifies this`sent
      ensures answered == dev
      ensures sent == if dev then old(sent) + [cmd] else old(sent)
    {
      if !dev {
        return false;
      }
      sent := sent + [cmd];
      answered := true;
    }

    /** Configures the controller. baseError and attached stand for the
        result of the base driver's Init, which is not part of this model. */
    method Init(conf: InitValues, baseError: int, attached: bool) returns (err: int)
      modifies this
      ensures Ready()
      ensures err == baseError && error == baseError && dev == attached
      ensures out == conf.output.GetOr(Term)
      ensures swfreq == conf.swfreq.GetOr(DEFAULT_SWFREQ)
      ensures sent == old(sent)
    {
      error := baseError;
      dev := attached;
      out := Term;
      if conf.output.Some? {
        out := conf.output.value;
      }
      var routes := RoutesFor(out);
      lf, hf := Some(routes.lf), Some(routes.hf);
      swfreq := DEFAULT_SWFREQ;
      if conf.swfreq.Some? {
        swfreq := conf.swfreq.value;
      }
      err := error;
    }

    /** Routes the switch for frequency f; always returns (0, f). */
    method SetFreq(f: real) returns (status: int, freq: real)
      requires Ready()
      modifies this`sent
      ensures status == 0 && freq == f
      ensures sent == if dev then old(sent) + [SetFreqCommand(RoutesFor(out), swfreq, f)] else old(sent)
    {
      var cmd: string;
      if f <= swfreq {
        cmd := lf.value + R34_REST;
      } else {
        cmd := hf.value + R34_REST;
      }
      var _ := Query(cmd);
      return 0, f;
    }

    /** Returns the switch to its rest position; always returns 0. */
    method Quit() returns (status: int)
      modifies this`sent
      ensures status == 0
      ensures sent == if dev then old(sent) + [QuitCommand()] else old(sent)
    {
      var _ := Query(R1_DIRECT + R2_TERM + R34_REST);
      return 0;
    }
  }
}
