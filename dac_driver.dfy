/**
 * The instrument driver for the multi-channel DAC ("Compact 2012"): the
 * voltage requests of one batch of `performSetValue` calls are collected in a
 * map, one entry per channel, and on the final call of the batch they are
 * handed to the instrument, which is polled until it reports that every
 * channel has arrived or the user stops the sweep.
 *
 * The instrument's rate-limited stepping is not part of this model: each poll
 * of `sync_dac_set_all` is an answer taken from a script, and everything the
 * driver sends out (to the instrument or to the measurement framework) is
 * recorded, in order, in `Driver.events`.
 */
module DacDriver {
  import opened Wrappers
  import opened PyText

  /** One entry of the request map: target voltage, sweep rate in V/s, jumper gain. */
  datatype Request = Request(desiredV: real, sweepVPerSecond: real, gain: real)

  /**
   * One answer of the instrument's poll: whether every channel has reached
   * its target, and the channels it wrote during this poll with their new
   * values, in the order it reports them.
   */
  datatype PollReply = PollReply(done: bool, changed: seq<(int, real)>)

  /** What the driver sends out, in order. */
  datatype Event =
    | UserLed(on: bool)                                 // sync_set_user_led
    | LedThreshold(percentFS: real)                     // sync_set_geophone_led_threshold_percent_FS
    | JumperSet(name: string, value: real)              // quant.setValue on a jumper quantity
    | ReadFromOther(indx0: int)                         // readValueFromOther of VoltageName(indx0)
    | Poll(requests: map<int, Request>)                 // sync_dac_set_all
    | Echo(indx0: int, value: real, sweepRate: real)    // setValue of VoltageName(indx0)
    | StopQuery(stopped: bool)                          // isStopped, with its answer

  /** The exceptions `performSetValue` can raise. */
  datatype DriverError =
    | BadChannelName(name: string)  // int() of the channel number fails
    | UnknownQuantity(name: string) // getValue of a jumper quantity the framework lacks
    | UnknownGain(jumperLabel: string) // the jumper label is not a key of the gain table
    | NoBatch                       // the request map is used before any first call made it

  /** Sweep rate echoed for a channel that has no request. */
  const DefaultSweepRate: real := 0.001

  const GreenLed: string := "Green LED"
  const RedLedThreshold: string := "red LED threshold percent FS"
  const VoltageSuffix: string := "-voltage"
  const JumperSuffix: string := "-jumper setting"

  /** `'DA%d-voltage' % (indx0 + 1)` */
  function VoltageName(indx0: int): string {
    "DA" + IntToDecimal(indx0 + 1) + VoltageSuffix
  }

  /** `'DA%d-jumper setting' % (indx0 + 1)` */
  function JumperName(indx0: int): string {
    "DA" + IntToDecimal(indx0 + 1) + JumperSuffix
  }

  /** `int(name.strip().split('-')[0][2:]) - 1`: the zero-based channel in a quantity name. */
  function ParseChannelIndex(name: string): Result<int, DriverError> {
    match ParseInt(Drop(BeforeFirst(Strip(name), '-'), 2))
    case Some(k) => Success(k - 1)
    case None => Failure(BadChannelName(name))
  }

  /** `min(f_max_range, max(-f_max_range, value))` */
  function Clamp(value: real, maxRange: real): (r: real)
    ensures maxRange >= 0.0 ==> -maxRange <= r <= maxRange
    ensures -maxRange <= value <= maxRange ==> r == value
    ensures maxRange >= 0.0 && value > maxRange ==> r == maxRange
    ensures maxRange >= 0.0 && value < -maxRange ==> r == -maxRange
    ensures maxRange < 0.0 ==> r == maxRange
  {
    var lower := if -maxRange > value then -maxRange else value;
    if maxRange < lower then maxRange else lower
  }

  /** `max(0.0, min(100.0, value))` */
  function ClampPercent(value: real): (r: real)
    ensures 0.0 <= r <= 100.0
    ensures 0.0 <= value <= 100.0 ==> r == value
    ensures value < 0.0 ==> r == 0.0
    ensures value > 100.0 ==> r == 100.0
  {
    var upper := if 100.0 < value then 100.0 else value;
    if 0.0 > upper then 0.0 else upper
  }

  /** Which branch of `performSetValue` a quantity name selects, tested in the source's order. */
  datatype Quantity = GreenLedQuantity | VoltageQuantity | JumperQuantity | ThresholdQuantity | OtherQuantity

  function Classify(name: string): Quantity {
    if name == GreenLed then GreenLedQuantity
    else if EndsWith(name, VoltageSuffix) then VoltageQuantity
    else if EndsWith(name, JumperSuffix) then JumperQuantity
    else if name == RedLedThreshold then ThresholdQuantity
    else OtherQuantity
  }

  /**
   * The voltage branch up to the request it builds
   * (humidity_controller_2022.py:41-46): the channel, the gain its jumper
   * quantity selects in the gain table, and the value clamped to the output
   * range at that gain. `labels` is what `getValue` returns for each jumper
   * quantity, `gains` the gain table and `maxV` the full range at gain 1.
   */
  function VoltageRequest(name: string, value: real, sweepRate: real,
                          labels: map<string, string>, gains: map<string, real>, maxV: real): Result<(int, Request), DriverError>
  {
    match ParseChannelIndex(name)
    case Failure(e) => Failure(e)
    case Success(k) =>
      var jumper := JumperName(k);
      if jumper !in labels then Failure(UnknownQuantity(jumper))
      else if labels[jumper] !in gains then Failure(UnknownGain(labels[jumper]))
      else
        var gain := gains[labels[jumper]];
        Success((k, Request(Clamp(value, maxV * gain), sweepRate, gain)))
  }

  /** What one `performSetValue` call does before the final-call check. */
  datatype Outcome = Outcome(result: Result<real, DriverError>, requested: Option<map<int, Request>>, sent: seq<Event>)

  /**
   * The branch chain of `performSetValue` (humidity_controller_2022.py:34-63)
   * on the request map `batch` as the first-call reset left it.
   */
  function Dispatch(name: string, value: real, sweepRate: real, batch: Option<map<int, Request>>,
                    labels: map<string, string>, gains: map<string, real>, maxV: real): Outcome
  {
    match Classify(name)
    case GreenLedQuantity =>
      Outcome(Success(value), batch, [UserLed(value != 0.0)])
    case VoltageQuantity =>
      (match VoltageRequest(name, value, sweepRate, labels, gains, maxV)
       case Failure(e) => Outcome(Failure(e), batch, [])
       case Success(kr) =>
         if batch.None? then Outcome(Failure(NoBatch), batch, [])
         else Outcome(Success(kr.1.desiredV), Some(batch.value[kr.0 := kr.1]), []))
    case JumperQuantity =>
      (match ParseChannelIndex(name)
       case Failure(e) => Outcome(Failure(e), batch, [])
       case Success(k) => Outcome(Success(value), batch, [JumperSet(name, value), ReadFromOther(k)]))
    case ThresholdQuantity =>
      var v := ClampPercent(value);
      Outcome(Success(v), batch, [LedThreshold(v)])
    case OtherQuantity =>
      Outcome(Success(value), batch, [])
  }

  /** Some poll of the script ends the loop: the instrument reports done, or the user stopped. */
  predicate SyncEnds(polls: seq<PollReply>, stops: seq<bool>)
    requires |stops| == |polls|
  {
    exists k :: 0 <= k < |polls| && (polls[k].done || stops[k])
  }

  /** The first poll that ends the loop is poll `k`. */
  predicate FirstExit(polls: seq<PollReply>, stops: seq<bool>, k: nat)
    requires |stops| == |polls|
  {
    k < |polls| && (polls[k].done || stops[k]) &&
    forall j :: 0 <= j < k ==> !polls[j].done && !stops[j]
  }

  /** The sweep rate echoed for channel `indx0`: its request's, or the default. */
  function EchoRate(req: map<int, Request>, indx0: int): real {
    if indx0 in req then req[indx0].sweepVPerSecond else DefaultSweepRate
  }

  function EchoOf(req: map<int, Request>, change: (int, real)): Event {
    Echo(change.0, change.1, EchoRate(req, change.0))
  }

  /** The `setValue` echoes of one poll's changes, in the order reported. */
  function Echoes(req: map<int, Request>, changed: seq<(int, real)>): (es: seq<Event>)
    ensures |es| == |changed|
  {
    seq(|changed|, j requires 0 <= j < |changed| => EchoOf(req, changed[j]))
  }

  /**
   * What one turn of `sync_DACs` sends: the poll, the echo of each change it
   * reports and, unless the poll said done, the stop query with its answer.
   */
  function Round(req: map<int, Request>, reply: PollReply, stopped: bool): seq<Event> {
    [Poll(req)] + Echoes(req, reply.changed) + (if reply.done then [] else [StopQuery(stopped)])
  }

  /** What `sync_DACs` sends while it consumes the scripted polls, up to the first that ends it. */
  function SyncTrace(req: map<int, Request>, polls: seq<PollReply>, stops: seq<bool>): seq<Event>
    requires |stops| == |polls|
    decreases |polls|
  {
    if polls == [] then []
    else if polls[0].done || stops[0] then Round(req, polls[0], stops[0])
    else Round(req, polls[0], stops[0]) + SyncTrace(req, polls[1..], stops[1..])
  }

  function CountPolls(es: seq<Event>): nat {
    if es == [] then 0 else CountPolls(es[..|es| - 1]) + (if es[|es| - 1].Poll? then 1 else 0)
  }

  function CountStopQueries(es: seq<Event>): nat {
    if es == [] then 0 else CountStopQueries(es[..|es| - 1]) + (if es[|es| - 1].StopQuery? then 1 else 0)
  }

  class Driver {
    /** `dict_requested_values`: absent until the first call of a batch creates it. */
    var requested: Option<map<int, Request>>
    /** Everything sent to the instrument or the framework so far. */
    var events: seq<Event>
    /** The label `getValue` returns for each jumper quantity. */
    const labels: map<string, string>
    /** `DICT_GAIN_2_VALUE` */
    const gains: map<string, real>
    /** `VALUE_PLUS_MIN_MAX_V` */
    const maxV: real

    constructor (labels: map<string, string>, gains: map<string, real>, maxV: real)
      ensures this.labels == labels && this.gains == gains && this.maxV == maxV
      ensures requested == None && events == []
    {
      this.labels := labels;
      this.gains := gains;
      this.maxV := maxV;
      requested := None;
      events := [];
    }

    /**
     * `performSetValue(quant, value, sweepRate)`, where `firstCall` and
     * `finalCall` are the framework's answers for this call and, when the
     * call is final, `polls` and `stops` script the instrument's poll answers
     * and the stop flag.
     */
    method PerformSetValue(name: string, value: real, sweepRate: real, firstCall: bool, finalCall: bool,
                           polls: seq<PollReply>, stops: seq<bool>)
      returns (r: Result<real, DriverError>)
      requires |stops| == |polls| && (finalCall ==> SyncEnds(polls, stops))
      modifies this`requested, this`events
      ensures var o := Dispatch(name, value, sweepRate, if firstCall then Some(map[]) else old(requested), labels, gains, maxV);
              requested == o.requested
      ensures var o := Dispatch(name, value, sweepRate, if firstCall then Some(map[]) else old(requested), labels, gains, maxV);
              r == if o.result.Success? && finalCall && o.requested.None? then Failure(NoBatch) else o.result
      ensures var o := Dispatch(name, value, sweepRate, if firstCall then Some(map[]) else old(requested), labels, gains, maxV);
              events == old(events) + o.sent +
                        if o.result.Success? && finalCall && o.requested.Some? && |o.requested.value| > 0
                        then SyncTrace(o.requested.value, polls, stops) else []
    {
      if firstCall {
        requested := Some(map[]);
      }
      ghost var o := Dispatch(name, value, sweepRate, requested, labels, gains, maxV);
      r := Success(value);
      match Classify(name) {
        case GreenLedQuantity =>
          events := events + [UserLed(value != 0.0)];
        case VoltageQuantity =>
          var request := VoltageRequest(name, value, sweepRate, labels, gains, maxV);
          if request.Failure? {
            return Failure(request.error);
          }
          if requested.None? {
            return Failure(NoBatch);
          }
          var (indx0, entry) := request.value;
          requested := Some(requested.value[indx0 := entry]);
          r := Success(entry.desiredV);
        case JumperQuantity =>
          var parsed := ParseChannelIndex(name);
          if parsed.Failure? {
            return Failure(parsed.error);
          }
          events := events + [JumperSet(name, value), ReadFromOther(parsed.value)];
        case ThresholdQuantity =>
          var v := ClampPercent(value);
          events := events + [LedThreshold(v)];
          r := Success(v);
        case OtherQuantity =>
      }
      assert r == o.result && requested == o.requested && events == old(events) + o.sent;
      if finalCall {
        if requested.None? {
          return Failure(NoBatch);
        }
        if |requested.value| > 0 {
          SyncDacs(polls, stops);
        }
      }
    }

    /** `sync_DACs`: poll until the instrument is done or the user stopped, echoing every change. */
    method SyncDacs(polls: seq<PollReply>, stops: seq<bool>)
      requires requested.Some?
      requires |stops| == |polls| && SyncEnds(polls, stops)
      modifies this`events
      ensures events == old(events) + SyncTrace(requested.value, polls, stops)
    {
      var req := requested.value;
      ghost var k :| 0 <= k < |polls| && (polls[k].done || stops[k]);
      var i := 0;
      while true
        invariant 0 <= i <= k
        invariant old(events) + SyncTrace(req, polls, stops) == events + SyncTrace(req, polls[i..], stops[i..])
        decreases k - i
      {
        ghost var before := events;
        var exit := PollOnce(req, polls[i], stops[i]);
        SyncTraceStep(req, polls, stops, i, before);
        if exit {
          return;
        }
        i := i + 1;
      }
    }

    /** One turn of the loop; `exit` says whether the loop ends after it. */
    method PollOnce(req: map<int, Request>, reply: PollReply, stop: bool) returns (exit: bool)
      modifies this`events
      ensures exit == (reply.done || stop)
      ensures events == old(events) + Round(req, reply, stop)
    {
      events := events + [Poll(req)];
      EchoChanges(req, reply.changed);
      if reply.done {
        return true;
      }
      var stopped := stop;
      events := events + [StopQuery(stopped)];
      return stopped;
    }

    /** The inner loop of `sync_DACs`: echo each changed channel through `setValue`. */
    method EchoChanges(req: map<int, Request>, changed: seq<(int, real)>)
      modifies this`events
      ensures events == old(events) + Echoes(req, changed)
    {
      for j := 0 to |changed|
        invariant events == old(events) + Echoes(req, changed[..j])
      {
        var (indx0, value) := changed[j];
        assert Echoes(req, changed[..j + 1]) == Echoes(req, changed[..j]) + [EchoOf(req, (indx0, value))];
        events := events + [Echo(indx0, value, EchoRate(req, indx0))];
      }
      assert changed[..|changed|] == changed;
    }
  }

  /** One turn of the poll loop, read off the trace of the polls from `i` on, after the events `before`. */
  lemma SyncTraceStep(req: map<int, Request>, polls: seq<PollReply>, stops: seq<bool>, i: nat, before: seq<Event>)
    requires |stops| == |polls| && i < |polls|
    ensures before + SyncTrace(req, polls[i..], stops[i..]) ==
              if polls[i].done || stops[i] then before + Round(req, polls[i], stops[i])
              else (before + Round(req, polls[i], stops[i])) + SyncTrace(req, polls[i + 1..], stops[i + 1..])
  {
    assert polls[i..][0] == polls[i] && stops[i..][0] == stops[i];
    assert polls[i..][1..] == polls[i + 1..] && stops[i..][1..] == stops[i + 1..];
  }

  // ---------------------------------------------------------------------
  // Channel names
  // ---------------------------------------------------------------------

  lemma {:induction false} BeforeFirstSplit(p: string, sep: char, q: string)
    requires sep !in p
    ensures BeforeFirst(p + [sep] + q, sep) == p
  {
    if p != [] {
      assert (p + [sep] + q)[1..] == p[1..] + [sep] + q;
      BeforeFirstSplit(p[1..], sep, q);
    }
  }

  /** Both quantity suffixes start with the separator and end in a non-blank. */
  lemma SuffixShape(suffix: string)
    requires suffix == VoltageSuffix || suffix == JumperSuffix
    ensures |suffix| > 1 && suffix[0] == '-' && !IsSpace(suffix[|suffix| - 1])
  {
  }

  /** `name.strip().split('-')[0]` of "DA<digits><suffix>" is "DA<digits>". */
  lemma ChannelHead(d: string, suffix: string)
    requires AllDigits(d)
    requires |suffix| > 1 && suffix[0] == '-' && !IsSpace(suffix[|suffix| - 1])
    ensures BeforeFirst(Strip("DA" + d + suffix), '-') == "DA" + d
  {
    var head := "DA" + d;
    var name := head + suffix;
    assert name[0] == 'D' && name[|name| - 1] == suffix[|suffix| - 1];
    StripUnchanged(name);
    assert '-' !in head by {
      forall i | 0 <= i < |head| ensures head[i] != '-' {
        if i >= 2 { assert head[i] == d[i - 2] && IsDigit(d[i - 2]); }
      }
    }
    assert name == head + ['-'] + suffix[1..];
    BeforeFirstSplit(head, '-', suffix[1..]);
  }

  /** A non-empty digit string parses to its value. */
  lemma ParseDigits(d: string)
    requires d != [] && AllDigits(d)
    ensures ParseInt(d) == Some(DigitsValue(d) as int)
  {
    assert IsDigit(d[0]) && IsDigit(d[|d| - 1]);
    StripUnchanged(d);
  }

  /**
   * "DA<digits>" followed by a suffix such as "-voltage" or "-jumper setting"
   * names channel <digits> - 1.
   */
  lemma ParseChannelDigits(d: string, suffix: string)
    requires d != [] && AllDigits(d)
    requires |suffix| > 1 && suffix[0] == '-' && !IsSpace(suffix[|suffix| - 1])
    ensures ParseChannelIndex("DA" + d + suffix) == Success(DigitsValue(d) - 1)
  {
    ChannelHead(d, suffix);
    assert Drop("DA" + d, 2) == d;
    ParseDigits(d);
  }

  /** `'DA%d-voltage' % (indx0 + 1)` parses back to `indx0` for every channel index from -1 up. */
  lemma ChannelNameRoundTrip(indx0: int)
    requires indx0 >= -1
    ensures ParseChannelIndex(VoltageName(indx0)) == Success(indx0)
    ensures ParseChannelIndex(JumperName(indx0)) == Success(indx0)
  {
    var d := NatToDecimal(indx0 + 1);
    DecimalRoundTrip(indx0 + 1);
    SuffixShape(VoltageSuffix);
    SuffixShape(JumperSuffix);
    ParseChannelDigits(d, VoltageSuffix);
    ParseChannelDigits(d, JumperSuffix);
  }

  /** Below -1 the numeral carries a minus sign, the split cuts it off and `int('')` fails. */
  lemma ChannelNameBelowRange(indx0: int)
    requires indx0 < -1
    ensures ParseChannelIndex(VoltageName(indx0)).Failure?
  {
    var name := VoltageName(indx0);
    StripUnchanged(name);
    assert name == "DA" + ['-'] + (NatToDecimal(-(indx0 + 1)) + VoltageSuffix);
    BeforeFirstSplit("DA", '-', NatToDecimal(-(indx0 + 1)) + VoltageSuffix);
  }

  /** No parsed channel index is below -1: the split removes every minus sign. */
  lemma ParsedChannelAtLeastMinusOne(name: string)
    requires ParseChannelIndex(name).Success?
    ensures ParseChannelIndex(name).value >= -1
  {
    var head := BeforeFirst(Strip(name), '-');
    var piece := Drop(head, 2);
    BeforeFirstSpec(Strip(name), '-');
    assert '-' !in piece by {
      if |head| > 2 {
        assert forall c :: c in head[2..] ==> c in head;
      }
    }
    var t := Strip(piece);
    if t != [] {
      StripKeeps(piece, t[0]);
    }
  }

  /**
   * A jumper change sets the jumper quantity, then refreshes the voltage
   * quantity of the same channel, whatever the sweep rate.
   */
  lemma JumperRefreshesOwnChannel(name: string, value: real, sweepRate: real, batch: Option<map<int, Request>>,
                                  labels: map<string, string>, gains: map<string, real>, maxV: real)
    requires Classify(name) == JumperQuantity && ParseChannelIndex(name).Success?
    ensures var o := Dispatch(name, value, sweepRate, batch, labels, gains, maxV);
            var k := ParseChannelIndex(name).value;
            o.result == Success(value) && o.requested == batch &&
            o.sent == [JumperSet(name, value), ReadFromOther(k)] &&
            ParseChannelIndex(VoltageName(k)) == ParseChannelIndex(name)
  {
    ParsedChannelAtLeastMinusOne(name);
    ChannelNameRoundTrip(ParseChannelIndex(name).value);
  }

  // ---------------------------------------------------------------------
  // One call
  // ---------------------------------------------------------------------

  /**
   * A voltage request exists exactly when the name carries a channel number,
   * the framework knows that channel's jumper quantity and the gain table
   * knows its label; the stored value is the requested one clamped into the
   * range of that gain, and the sweep rate is the caller's.
   */
  lemma VoltageRequestClamped(name: string, value: real, sweepRate: real,
                              labels: map<string, string>, gains: map<string, real>, maxV: real)
    requires maxV >= 0.0 && forall l :: l in gains ==> gains[l] >= 0.0
    ensures var v := VoltageRequest(name, value, sweepRate, labels, gains, maxV);
            v.Success? <==>
              ParseChannelIndex(name).Success? && JumperName(ParseChannelIndex(name).value) in labels &&
              labels[JumperName(ParseChannelIndex(name).value)] in gains
    ensures var v := VoltageRequest(name, value, sweepRate, labels, gains, maxV);
            v.Success? ==>
              var (k, req) := v.value;
              k == ParseChannelIndex(name).value &&
              req.gain == gains[labels[JumperName(k)]] &&
              -maxV * req.gain <= req.desiredV <= maxV * req.gain &&
              (-maxV * req.gain <= value <= maxV * req.gain ==> req.desiredV == value) &&
              req.sweepVPerSecond == sweepRate
  {
    var v := VoltageRequest(name, value, sweepRate, labels, gains, maxV);
    if v.Success? {
      var g := v.value.1.gain;
      assert g in gains.Values;
      assert maxV * g >= 0.0;
    }
  }

  /**
   * A successful voltage call sends nothing, returns the value it stored and
   * changes the request of its own channel only.
   */
  lemma VoltageCallTouchesOneChannel(name: string, value: real, sweepRate: real, batch: map<int, Request>,
                                     labels: map<string, string>, gains: map<string, real>, maxV: real)
    requires Classify(name) == VoltageQuantity
    ensures var o := Dispatch(name, value, sweepRate, Some(batch), labels, gains, maxV);
            o.result.Success? ==>
              var k := ParseChannelIndex(name).value;
              var v := VoltageRequest(name, value, sweepRate, labels, gains, maxV);
              o.sent == [] && o.requested.Some? && v.Success? && v.value.0 == k &&
              k in o.requested.value && o.requested.value[k] == v.value.1 &&
              o.result.value == o.requested.value[k].desiredV &&
              o.requested.value.Keys == batch.Keys + {k} &&
              forall j :: j in batch && j != k ==> o.requested.value[j] == batch[j]
  {
  }

  /** A voltage call that fails leaves the request map alone and sends nothing. */
  lemma FailedCallLeavesNoTrace(name: string, value: real, sweepRate: real, batch: Option<map<int, Request>>,
                                labels: map<string, string>, gains: map<string, real>, maxV: real)
    ensures var o := Dispatch(name, value, sweepRate, batch, labels, gains, maxV);
            o.result.Failure? ==> o.requested == batch && o.sent == []
  {
  }

  /** The red-LED threshold is sent and returned clamped to [0, 100]. */
  lemma ThresholdClamped(value: real, sweepRate: real, batch: Option<map<int, Request>>,
                         labels: map<string, string>, gains: map<string, real>, maxV: real)
    ensures var o := Dispatch(RedLedThreshold, value, sweepRate, batch, labels, gains, maxV);
            o.result.Success? && 0.0 <= o.result.value <= 100.0 &&
            o.sent == [LedThreshold(o.result.value)] && o.requested == batch &&
            (0.0 <= value <= 100.0 ==> o.result.value == value)
  {
  }

  // ---------------------------------------------------------------------
  // The poll loop
  // ---------------------------------------------------------------------

  /** The loop stops at the first poll that is done or stopped; later answers are never read. */
  lemma {:induction false} SyncTraceStopsAtFirstExit(req: map<int, Request>, polls: seq<PollReply>, stops: seq<bool>, k: nat)
    requires |stops| == |polls| && FirstExit(polls, stops, k)
    ensures SyncTrace(req, polls, stops) == SyncTrace(req, polls[..k + 1], stops[..k + 1])
  {
    var p, s := polls[..k + 1], stops[..k + 1];
    assert p[0] == polls[0] && s[0] == stops[0];
    if k > 0 {
      assert p[1..] == polls[1..][..k] && s[1..] == stops[1..][..k];
      SyncTraceStopsAtFirstExit(req, polls[1..], stops[1..], k - 1);
    }
  }

  lemma {:induction false} CountAppend(a: seq<Event>, b: seq<Event>)
    ensures CountPolls(a + b) == CountPolls(a) + CountPolls(b)
    ensures CountStopQueries(a + b) == CountStopQueries(a) + CountStopQueries(b)
    decreases |b|
  {
    if b == [] {
      assert a + b == a;
    } else {
      assert (a + b)[..|a + b| - 1] == a + b[..|b| - 1];
      CountAppend(a, b[..|b| - 1]);
    }
  }

  lemma {:induction false} EchoesCountNothing(req: map<int, Request>, changed: seq<(int, real)>)
    ensures CountPolls(Echoes(req, changed)) == 0 && CountStopQueries(Echoes(req, changed)) == 0
    decreases |changed|
  {
    if changed != [] {
      var n := |changed| - 1;
      assert Echoes(req, changed)[..n] == Echoes(req, changed[..n]);
      EchoesCountNothing(req, changed[..n]);
    }
  }

  /** A turn polls once, and reads the stop flag once unless the poll said done. */
  lemma RoundCounts(req: map<int, Request>, reply: PollReply, stopped: bool)
    ensures CountPolls(Round(req, reply, stopped)) == 1
    ensures CountStopQueries(Round(req, reply, stopped)) == if reply.done then 0 else 1
  {
    var echoes := Echoes(req, reply.changed);
    var tail: seq<Event> := if reply.done then [] else [StopQuery(stopped)];
    EchoesCountNothing(req, reply.changed);
    CountAppend([Poll(req)], echoes);
    CountAppend([Poll(req)] + echoes, tail);
    assert CountPolls([Poll(req)]) == 1 && CountStopQueries([Poll(req)]) == 0;
    assert CountPolls(tail) == 0 && CountStopQueries(tail) == |tail|;
  }

  /**
   * When poll `k` is the first to end the loop, the instrument is polled
   * exactly k + 1 times, and the stop flag is read once after every poll
   * that was not done: k times if poll k was done, k + 1 times otherwise.
   */
  lemma {:induction false} SyncTraceCounts(req: map<int, Request>, polls: seq<PollReply>, stops: seq<bool>, k: nat)
    requires |stops| == |polls| && FirstExit(polls, stops, k)
    ensures CountPolls(SyncTrace(req, polls, stops)) == k + 1
    ensures CountStopQueries(SyncTrace(req, polls, stops)) == if polls[k].done then k else k + 1
  {
    RoundCounts(req, polls[0], stops[0]);
    if k > 0 {
      SyncTraceCounts(req, polls[1..], stops[1..], k - 1);
      CountAppend(Round(req, polls[0], stops[0]), SyncTrace(req, polls[1..], stops[1..]));
    }
  }

  /**
   * Every echo of a poll's change goes to the voltage quantity of the channel
   * that changed, carries the new value and that channel's requested sweep
   * rate, or 0.001 when the channel has no request.
   */
  lemma EchoTargetsChangedChannel(req: map<int, Request>, changed: seq<(int, real)>, j: nat)
    requires j < |changed| && changed[j].0 >= -1
    ensures var e := Echoes(req, changed)[j];
            e.Echo? && e.indx0 == changed[j].0 && ParseChannelIndex(VoltageName(e.indx0)) == Success(e.indx0) && e.value == changed[j].1 &&
            e.sweepRate == (if changed[j].0 in req then req[changed[j].0].sweepVPerSecond else 0.001)
  {
    ChannelNameRoundTrip(changed[j].0);
  }
}
