/** Autonomous/finalRoverWorkFlow.py: the camera-driven dispatch loop of
    Testing/grokRover.py (the motor functions and the dispatch are the same
    text, and are modelled once in GrokRover), plus a data-logging step on
    every pass: when the position server reports a centre, the script reads
    the DHT11 and the MQ2 gas sensor and appends a row to `sensor_data.csv`.

    The MQ2 is read through an MCP3008 analog-to-digital converter over SPI,
    in the single-ended read sequence of the Microchip MCP3008 datasheet: a
    start byte 1, a byte whose high nibble is `1 ccc` (single-ended, channel
    `ccc`), a don't-care byte, and a reply whose last ten bits are the
    sample. `spi.xfer2` is outside the model: the SPI object records the
    frames sent and the reply bytes enter as a parameter. */
module FinalRoverWorkFlow {
  import opened RoverMath
  import opened Motors
  import GrokRover

  const Mq2Channel := 0

  /** `[1, (8 + channel) << 4, 0]`. */
  function CommandFrame(channel: int): (r: seq<bv8>)
    requires 0 <= channel <= 7
    ensures |r| == 3 && r[0] == 1 && r[2] == 0
    ensures (r[1] >> 4) as int == 8 + channel && r[1] & 15 == 0
  {
    [1, ((8 + channel) * 16) as bv8, 0]
  }

  /** Different channels are asked for with different frames. */
  lemma CommandFrameInjective(a: int, b: int)
    requires 0 <= a <= 7 && 0 <= b <= 7
    ensures CommandFrame(a) == CommandFrame(b) <==> a == b
  {
    if CommandFrame(a) == CommandFrame(b) {
      assert CommandFrame(a)[1] == CommandFrame(b)[1];
    }
  }

  /** `((adc[1] & 3) << 8) + adc[2]`: the ten-bit sample. */
  function Decode(reply: seq<bv8>): (r: int)
    requires |reply| == 3
    ensures 0 <= r <= 1023
  {
    ((reply[1] & 3) as int) * 256 + reply[2] as int
  }

  /** The decode reads only the two low bits of byte 1 and all of byte 2. */
  lemma DecodeIgnoresOtherBits(reply: seq<bv8>, other: seq<bv8>)
    requires |reply| == 3 && |other| == 3
    requires other[1] & 3 == reply[1] & 3 && other[2] == reply[2]
    ensures Decode(other) == Decode(reply)
  {
  }

  /** The reply a converter sends for a ten-bit sample, with the bits the
      decode ignores cleared. */
  function ReplyFor(sample: int): (r: seq<bv8>)
    requires 0 <= sample <= 1023
    ensures |r| == 3
  {
    [0, (sample / 256) as bv8, (sample % 256) as bv8]
  }

  /** Every reply decodes to the sample its meaningful bits carry. */
  lemma ReplyForOfDecode(reply: seq<bv8>)
    requires |reply| == 3
    ensures ReplyFor(Decode(reply)) == [0, reply[1] & 3, reply[2]]
  {
    var b1 := reply[1] & 3;
    assert b1 as int < 4 by {
      assert b1 <= 3;
    }
    var d := Decode(reply);
    assert d / 256 == b1 as int && d % 256 == reply[2] as int;
    assert (b1 as int) as bv8 == b1;
  }

  /** The SPI bus to the MCP3008: the frames sent so far. */
  class Spi {
    var sent: seq<seq<bv8>>

    constructor()
      ensures sent == []
    {
      sent := [];
    }

    /** `read_adc(channel)`, with `reply` the bytes `spi.xfer2` would
        return. A channel outside 0..7 gives -1 and sends nothing. */
    method ReadAdc(channel: int, reply: seq<bv8>) returns (data: int)
      requires 0 <= channel <= 7 ==> |reply| == 3
      modifies this
      ensures !(0 <= channel <= 7) ==> data == -1 && sent == old(sent)
      ensures 0 <= channel <= 7 ==> data == Decode(reply) && sent == old(sent) + [CommandFrame(channel)]
    {
      if channel < 0 || channel > 7 {
        return -1;
      }
      sent := sent + [CommandFrame(channel)];
      data := ((reply[1] & 3) as int) * 256 + reply[2] as int;
    }
  }

  /** A line of `sensor_data.csv`: the header, or a reading. The DHT11 may
      return `None` for the temperature and the humidity. */
  datatype CsvRow =
    | Header
    | Reading(centerX: real, centerY: real, temperature: Option<real>, humidity: Option<real>, gasLevel: int)

  /** `sensor_data.csv`: whether the file exists and its lines. */
  class SensorLog {
    var fileExists: bool
    var rows: seq<CsvRow>

    constructor(alreadyThere: bool, existing: seq<CsvRow>)
      ensures fileExists == alreadyThere && rows == existing
    {
      fileExists, rows := alreadyThere, existing;
    }

    /** `write_to_csv`: the header first when the file is new, then the
        reading. */
    method WriteToCsv(row: CsvRow)
      modifies this
      ensures fileExists
      ensures rows == old(rows) + (if old(fileExists) then [] else [Header]) + [row]
    {
      if !fileExists {
        rows := rows + [Header];
      }
      rows := rows + [row];
      fileExists := true;
    }
  }

  /** What one pass of `main` receives: the action reply, the centre the
      position server reports (`None` where a field is missing or the
      request failed), the DHT11 reading and the MCP3008 reply. */
  datatype Pass = Pass(action: Option<string>, centerX: Option<real>, centerY: Option<real>,
                       temperature: Option<real>, humidity: Option<real>, adcReply: seq<bv8>)

  predicate Positioned(p: Pass) { p.centerX != None && p.centerY != None }

  datatype State = State(kit: Kit, sent: seq<seq<bv8>>, fileExists: bool, rows: seq<CsvRow>)

  function StateOf(kit: MotorKit, spi: Spi, log: SensorLog): State
    reads kit, spi, log
  {
    State(kit.Snapshot(), spi.sent, log.fileExists, log.rows)
  }

  /** The logging part of a pass: with a centre, one MQ2 read on channel 0
      and one CSV reading (after the header if the file is new); without
      one, nothing. */
  function LogStep(s: State, p: Pass): (r: State)
    requires Positioned(p) ==> |p.adcReply| == 3
    ensures r.kit == s.kit
    ensures !Positioned(p) ==> r == s
    ensures Positioned(p) ==> (r.fileExists && r.sent == s.sent + [CommandFrame(Mq2Channel)]
      && r.rows == s.rows + (if s.fileExists then [] else [Header])
                  + [Reading(p.centerX.value, p.centerY.value, p.temperature, p.humidity, Decode(p.adcReply))])
  {
    if Positioned(p) then
      var row := Reading(p.centerX.value, p.centerY.value, p.temperature, p.humidity, Decode(p.adcReply));
      State(s.kit, s.sent + [CommandFrame(Mq2Channel)], true,
            s.rows + (if s.fileExists then [] else [Header]) + [row])
    else s
  }

  predicate WellFormed(passes: seq<Pass>)
  {
    forall j :: 0 <= j < |passes| ==> (Positioned(passes[j]) ==> |passes[j].adcReply| == 3)
  }

  datatype RunEnd = RunEnd(state: State, stopped: bool, at: nat)

  /** `main` from pass `i` on. */
  function Run(s: State, passes: seq<Pass>, i: nat): (r: RunEnd)
    requires i <= |passes| && WellFormed(passes)
    ensures i <= r.at <= |passes|
    ensures r.stopped <==> r.at < |passes|
    ensures r.stopped ==> passes[r.at].action == GrokRover.StopAction && r.state.kit.throttles == Stopped
    ensures forall j :: i <= j < r.at ==> passes[j].action != GrokRover.StopAction
    ensures |r.state.kit.pulses| == |s.kit.pulses| + (r.at - i) && r.state.kit.pulses[..|s.kit.pulses|] == s.kit.pulses
    decreases |passes| - i
  {
    if i == |passes| then RunEnd(s, false, i)
    else
      var s1 := LogStep(s, passes[i]);
      if passes[i].action == GrokRover.StopAction then RunEnd(s1.(kit := s1.kit.(throttles := Stopped)), true, i)
      else
        var t := GrokRover.ThrottlesFor(passes[i].action);
        Run(s1.(kit := Kit(t, s1.kit.pulses + [Pulse(t, GrokRover.StepTime)])), passes, i + 1)
  }

  /** Each pass before the `'stop'` held the throttles of its own action
      for one `STEP_TIME`, so an action other than `'forward'`, `'left'` and
      `'right'` is a stopped step; logging never touches the motors. */
  lemma {:induction false} RunPulses(s: State, passes: seq<Pass>, i: nat)
    requires i <= |passes| && WellFormed(passes)
    ensures var r := Run(s, passes, i);
      forall j :: i <= j < r.at ==>
        r.state.kit.pulses[|s.kit.pulses| + (j - i)] == Pulse(GrokRover.ThrottlesFor(passes[j].action), GrokRover.StepTime)
        && (passes[j].action !in {Some("forward"), Some("left"), Some("right")} ==>
              r.state.kit.pulses[|s.kit.pulses| + (j - i)].throttles == Stopped)
    decreases |passes| - i
  {
    if i < |passes| && passes[i].action != GrokRover.StopAction {
      var s1 := LogStep(s, passes[i]);
      var t := GrokRover.ThrottlesFor(passes[i].action);
      var s2 := s1.(kit := Kit(t, s1.kit.pulses + [Pulse(t, GrokRover.StepTime)]));
      RunPulses(s2, passes, i + 1);
      var r := Run(s2, passes, i + 1);
      assert r.state.kit.pulses[..|s2.kit.pulses|] == s2.kit.pulses;
      assert r.state.kit.pulses[|s.kit.pulses|] == s2.kit.pulses[|s.kit.pulses|];
    }
  }

  /** The number of passes in [i, n) that had a centre. */
  function CountPositioned(passes: seq<Pass>, i: nat, n: nat): nat
    requires i <= n <= |passes|
    decreases n - i
  {
    if i == n then 0 else (if Positioned(passes[i]) then 1 else 0) + CountPositioned(passes, i + 1, n)
  }

  /** `sent` is `prefix` followed by MQ2 frames only. */
  predicate GasFramesAfter(sent: seq<seq<bv8>>, prefix: seq<seq<bv8>>)
  {
    |prefix| <= |sent| && sent[..|prefix|] == prefix
    && forall k :: |prefix| <= k < |sent| ==> sent[k] == CommandFrame(Mq2Channel)
  }

  lemma GasFramesAfterTransitive(a: seq<seq<bv8>>, b: seq<seq<bv8>>, c: seq<seq<bv8>>)
    requires GasFramesAfter(b, a) && GasFramesAfter(c, b)
    ensures GasFramesAfter(c, a)
  {
    assert c[..|a|] == b[..|a|];
    forall k | |a| <= k < |c|
      ensures c[k] == CommandFrame(Mq2Channel)
    {
      if k < |b| {
        assert c[k] == b[k];
      }
    }
  }

  lemma RowsExtendTransitive(a: seq<CsvRow>, b: seq<CsvRow>, c: seq<CsvRow>)
    requires |a| <= |b| && b[..|a|] == a && |b| <= |c| && c[..|b|] == b
    ensures |a| <= |c| && c[..|a|] == a
  {
    assert c[..|a|] == b[..|a|];
  }

  /** One pass's logging adds an MQ2 frame exactly when the pass had a
      centre, and only appends to the CSV. */
  lemma LogStepAppends(s: State, p: Pass)
    requires Positioned(p) ==> |p.adcReply| == 3
    ensures var s1 := LogStep(s, p);
      GasFramesAfter(s1.sent, s.sent) && |s1.sent| == |s.sent| + (if Positioned(p) then 1 else 0)
      && |s.rows| <= |s1.rows| && s1.rows[..|s.rows|] == s.rows
  {
    var s1 := LogStep(s, p);
    if Positioned(p) {
      assert s1.sent[..|s.sent|] == s.sent;
      assert s1.rows[..|s.rows|] == s.rows;
    }
  }

  /** Logging is driven by the centre alone: the SPI bus carries one MQ2
      frame for every pass that had a centre, the final `'stop'` pass
      included, and nothing else. */
  lemma {:induction false} RunLogsPositionedPasses(s: State, passes: seq<Pass>, i: nat)
    requires i <= |passes| && WellFormed(passes)
    ensures var r := Run(s, passes, i);
      var last := if r.stopped then r.at + 1 else r.at;
      |r.state.sent| == |s.sent| + CountPositioned(passes, i, last)
      && GasFramesAfter(r.state.sent, s.sent)
    decreases |passes| - i
  {
    if i == |passes| {
      assert s.sent[..|s.sent|] == s.sent;
    } else {
      LogStepAppends(s, passes[i]);
      if passes[i].action != GrokRover.StopAction {
        var s1 := LogStep(s, passes[i]);
        var t := GrokRover.ThrottlesFor(passes[i].action);
        var s2 := s1.(kit := Kit(t, s1.kit.pulses + [Pulse(t, GrokRover.StepTime)]));
        RunLogsPositionedPasses(s2, passes, i + 1);
        GasFramesAfterTransitive(s.sent, s2.sent, Run(s2, passes, i + 1).state.sent);
      }
    }
  }

  /** The CSV only grows: the rows `main` ends with start with the rows
      the file had. */
  lemma {:induction false} RunRowsOnlyGrow(s: State, passes: seq<Pass>, i: nat)
    requires i <= |passes| && WellFormed(passes)
    ensures var r := Run(s, passes, i);
      |r.state.rows| >= |s.rows| && r.state.rows[..|s.rows|] == s.rows
    decreases |passes| - i
  {
    if i == |passes| {
      assert s.rows[..|s.rows|] == s.rows;
    } else {
      LogStepAppends(s, passes[i]);
      if passes[i].action != GrokRover.StopAction {
        var s1 := LogStep(s, passes[i]);
        var t := GrokRover.ThrottlesFor(passes[i].action);
        var s2 := s1.(kit := Kit(t, s1.kit.pulses + [Pulse(t, GrokRover.StepTime)]));
        RunRowsOnlyGrow(s2, passes, i + 1);
        RowsExtendTransitive(s.rows, s2.rows, Run(s2, passes, i + 1).state.rows);
      }
    }
  }

  /** `read_gas_level()`: MQ2 is on channel 0, so it never reports the
      invalid-channel -1. */
  method ReadGasLevel(spi: Spi, reply: seq<bv8>) returns (gas: int)
    requires |reply| == 3
    modifies spi
    ensures gas == Decode(reply) && 0 <= gas <= 1023
    ensures spi.sent == old(spi.sent) + [CommandFrame(Mq2Channel)]
  {
    gas := spi.ReadAdc(Mq2Channel, reply);
  }

  /** The logging part of one pass of `main`. */
  method LogPass(kit: MotorKit, spi: Spi, log: SensorLog, p: Pass)
    requires Positioned(p) ==> |p.adcReply| == 3
    modifies spi, log
    ensures StateOf(kit, spi, log) == LogStep(old(StateOf(kit, spi, log)), p)
  {
    if p.centerX != None && p.centerY != None {
      var gasLevel := ReadGasLevel(spi, p.adcReply);
      log.WriteToCsv(Reading(p.centerX.value, p.centerY.value, p.temperature, p.humidity, gasLevel));
    }
  }

  /** `main()` over the passes. */
  method RunMain(kit: MotorKit, spi: Spi, log: SensorLog, passes: seq<Pass>) returns (stopped: bool, at: nat)
    requires WellFormed(passes)
    modifies kit, spi, log
    ensures var r := Run(old(StateOf(kit, spi, log)), passes, 0);
      StateOf(kit, spi, log) == r.state && stopped == r.stopped && at == r.at
  {
    var i := 0;
    while i < |passes|
      invariant i <= |passes|
      invariant Run(StateOf(kit, spi, log), passes, i) == Run(old(StateOf(kit, spi, log)), passes, 0)
      decreases |passes| - i
    {
      LogPass(kit, spi, log, passes[i]);
      var done := GrokRover.Dispatch(kit, passes[i].action);
      if done {
        return true, i;
      }
      kit.Sleep(GrokRover.StepTime);
      i := i + 1;
    }
    return false, i;
  }
}
