/**
 * The process-wide Prometheus metrics of the agent worker and the `metrics_collected` handler
 * that updates them: a latency summary each for LLM, STT and TTS, counters of tokens and of
 * conversation turns, and the gauge of active conversations.
 */
module SessionMetrics {
  import opened Wrappers
  import UsageReport

  /** A Prometheus summary: how many values were observed and their sum. */
  datatype Distribution = Distribution(count: nat, sum: int)

  const EmptyDistribution := Distribution(0, 0)

  function Observe(d: Distribution, value: int): Distribution {
    Distribution(d.count + 1, d.sum + value)
  }

  /** The class of a metrics event; `Unrecognised` is any class outside the four handled. */
  datatype MetricKind = LLM | STT | TTS | VAD | Unrecognised

  /** One metrics event; an attribute the event does not carry is `None`. */
  datatype Sample = Sample(kind: MetricKind, durationMs: Option<int>, totalTokens: Option<int>, conversation: Option<string>)

  /** The values of all six metrics. A Prometheus counter never goes below 0. */
  datatype Registry = Registry(
    llmLatency: Distribution,
    sttLatency: Distribution,
    ttsLatency: Distribution,
    totalTokens: nat,
    conversationTurns: nat,
    activeConversations: int)

  const InitialRegistry := Registry(EmptyDistribution, EmptyDistribution, EmptyDistribution, 0, 0, 0)

  /**
   * The result of handling one event. `raised` is set when a counter was asked to add a
   * negative amount, which Prometheus refuses with an error that ends the handler there.
   */
  datatype Outcome = Outcome(after: Registry, raised: bool)

  function CountTurn(r: Registry, e: Sample): Registry {
    if e.conversation.Some? then r.(conversationTurns := r.conversationTurns + 1) else r
  }

  /** The effect of the `metrics_collected` handler on the metrics. */
  function HandleMetrics(r: Registry, e: Sample): (o: Outcome)
    ensures o.after.activeConversations == r.activeConversations
    ensures o.raised <==> e.kind == LLM && e.totalTokens.Some? && e.totalTokens.value < 0
    ensures e.kind != LLM ==> o.after.llmLatency == r.llmLatency && o.after.totalTokens == r.totalTokens
    ensures e.kind != STT ==> o.after.sttLatency == r.sttLatency
    ensures e.kind != TTS ==> o.after.ttsLatency == r.ttsLatency
    ensures e.kind == LLM ==> (o.after.llmLatency ==
      if e.durationMs.Some? then Distribution(r.llmLatency.count + 1, r.llmLatency.sum + e.durationMs.value) else r.llmLatency)
    ensures e.kind == STT ==> (o.after.sttLatency ==
      if e.durationMs.Some? then Distribution(r.sttLatency.count + 1, r.sttLatency.sum + e.durationMs.value) else r.sttLatency)
    ensures e.kind == TTS ==> (o.after.ttsLatency ==
      if e.durationMs.Some? then Distribution(r.ttsLatency.count + 1, r.ttsLatency.sum + e.durationMs.value) else r.ttsLatency)
    ensures e.kind == LLM && !o.raised ==>
      o.after.totalTokens == r.totalTokens + (if e.totalTokens.Some? then e.totalTokens.value else 0)
    ensures o.raised ==> o.after.totalTokens == r.totalTokens
    ensures o.after.conversationTurns == r.conversationTurns + (if e.conversation.Some? && !o.raised then 1 else 0)
  {
    match e.kind
    case LLM =>
      var observed := if e.durationMs.Some? then r.(llmLatency := Observe(r.llmLatency, e.durationMs.value)) else r;
      if e.totalTokens.Some? && e.totalTokens.value < 0 then
        Outcome(observed, true)
      else
        var counted := if e.totalTokens.Some? then observed.(totalTokens := observed.totalTokens + e.totalTokens.value) else observed;
        Outcome(CountTurn(counted, e), false)
    case STT =>
      var observed := if e.durationMs.Some? then r.(sttLatency := Observe(r.sttLatency, e.durationMs.value)) else r;
      Outcome(CountTurn(observed, e), false)
    case TTS =>
      var observed := if e.durationMs.Some? then r.(ttsLatency := Observe(r.ttsLatency, e.durationMs.value)) else r;
      Outcome(CountTurn(observed, e), false)
    case VAD => Outcome(CountTurn(r, e), false)
    case Unrecognised => Outcome(CountTurn(r, e), false)
  }

  /**
   * The metrics after a sequence of events, handled in the order they arrive. An event whose
   * handler raised leaves the metrics as they were when it raised.
   */
  function Run(r: Registry, events: seq<Sample>): Registry {
    if events == [] then r else HandleMetrics(Run(r, events[..|events| - 1]), events[|events| - 1]).after
  }

  function SumDurations(events: seq<Sample>): int {
    if events == [] then 0 else SumDurations(events[..|events| - 1]) + events[|events| - 1].durationMs.GetOr(0)
  }

  function SumTokens(events: seq<Sample>): int {
    if events == [] then 0 else SumTokens(events[..|events| - 1]) + events[|events| - 1].totalTokens.GetOr(0)
  }

  function CountConversations(events: seq<Sample>): nat {
    if events == [] then 0
    else CountConversations(events[..|events| - 1]) + (if events[|events| - 1].conversation.Some? then 1 else 0)
  }

  predicate TimedLlm(e: Sample) {
    e.kind == LLM && e.durationMs.Some? && (e.totalTokens.Some? ==> e.totalTokens.value >= 0)
  }

  /**
   * LLM events that all carry a duration and no negative token count add their number to the
   * LLM latency count, their durations to its sum and their token counts to the token total,
   * and leave the STT and TTS distributions alone.
   */
  lemma {:induction false} RunLlmEvents(r: Registry, events: seq<Sample>)
    requires forall i :: 0 <= i < |events| ==> TimedLlm(events[i])
    ensures Run(r, events).llmLatency == Distribution(r.llmLatency.count + |events|, r.llmLatency.sum + SumDurations(events))
    ensures Run(r, events).totalTokens == r.totalTokens + SumTokens(events)
    ensures Run(r, events).sttLatency == r.sttLatency && Run(r, events).ttsLatency == r.ttsLatency
    ensures Run(r, events).conversationTurns == r.conversationTurns + CountConversations(events)
  {
    if events != [] {
      RunLlmEvents(r, events[..|events| - 1]);
    }
  }

  /**
   * VAD events and events of an unrecognised class change no latency distribution and no
   * token total; each of them that carries a conversation counts one turn.
   */
  lemma {:induction false} RunUntimedEvents(r: Registry, events: seq<Sample>)
    requires forall i :: 0 <= i < |events| ==> events[i].kind in {VAD, Unrecognised}
    ensures Run(r, events) == r.(conversationTurns := r.conversationTurns + CountConversations(events))
  {
    if events != [] {
      RunUntimedEvents(r, events[..|events| - 1]);
    }
  }

  /** Handling events never moves the active-conversation gauge. */
  lemma {:induction false} RunKeepsGauge(r: Registry, events: seq<Sample>)
    ensures Run(r, events).activeConversations == r.activeConversations
  {
    if events != [] {
      RunKeepsGauge(r, events[..|events| - 1]);
    }
  }

  /** Latency counts never decrease, whatever the events. */
  lemma {:induction false} RunCountsGrow(r: Registry, events: seq<Sample>)
    ensures Run(r, events).llmLatency.count >= r.llmLatency.count
    ensures Run(r, events).sttLatency.count >= r.sttLatency.count
    ensures Run(r, events).ttsLatency.count >= r.ttsLatency.count
    ensures Run(r, events).totalTokens >= r.totalTokens
    ensures Run(r, events).conversationTurns >= r.conversationTurns
  {
    if events != [] {
      RunCountsGrow(r, events[..|events| - 1]);
    }
  }

  function LlmSample(durationMs: int, totalTokens: Option<int>): Sample {
    Sample(LLM, Some(durationMs), totalTokens, None)
  }

  /** Five LLM latencies 100, 150, 120, 90, 200 and token counts 10 and 20. */
  lemma LlmAccumulationExample()
    ensures var events := [LlmSample(100, Some(10)), LlmSample(150, Some(20)), LlmSample(120, None),
                           LlmSample(90, None), LlmSample(200, None)];
      && Run(InitialRegistry, events).llmLatency == Distribution(5, 660)
      && Run(InitialRegistry, events).totalTokens == 30
  {
    var events := [LlmSample(100, Some(10)), LlmSample(150, Some(20)), LlmSample(120, None),
                   LlmSample(90, None), LlmSample(200, None)];
    RunLlmEvents(InitialRegistry, events);
    assert SumDurations(events[..1]) == 100 && SumTokens(events[..1]) == 10;
    assert SumDurations(events[..2]) == 250 && SumTokens(events[..2]) == 30;
    assert events[..3][..2] == events[..2];
    assert SumDurations(events[..3]) == 370 && SumTokens(events[..3]) == 30;
    assert events[..4][..3] == events[..3];
    assert SumDurations(events[..4]) == 460 && SumTokens(events[..4]) == 30;
    assert events == events[..4] + [events[4]];
  }

  /** Gauge steps at session start and at the usage report. */
  function StartSession(r: Registry): Registry {
    r.(activeConversations := r.activeConversations + 1)
  }

  function EndSession(r: Registry): Registry {
    r.(activeConversations := r.activeConversations - 1)
  }

  /**
   * A session that starts, handles any events and reports once leaves the gauge where it was,
   * and its report sees the gauge one above that.
   */
  lemma {:induction false} SessionGaugeBalanced(r: Registry, events: seq<Sample>)
    ensures Run(StartSession(r), events).activeConversations == r.activeConversations + 1
    ensures EndSession(Run(StartSession(r), events)).activeConversations == r.activeConversations
  {
    RunKeepsGauge(StartSession(r), events);
  }

  /** The metrics objects, updated in place. */
  class Metrics {
    var llmLatency: Distribution
    var sttLatency: Distribution
    var ttsLatency: Distribution
    var totalTokens: nat
    var conversationTurns: nat
    var activeConversations: int

    ghost function State(): Registry
      reads this
    {
      Registry(llmLatency, sttLatency, ttsLatency, totalTokens, conversationTurns, activeConversations)
    }

    constructor ()
      ensures State() == InitialRegistry
    {
      llmLatency, sttLatency, ttsLatency := EmptyDistribution, EmptyDistribution, EmptyDistribution;
      totalTokens, conversationTurns, activeConversations := 0, 0, 0;
    }

    /** The `metrics_collected` handler. `raised` tells whether it ended with an error. */
    method HandleEvent(e: Sample) returns (raised: bool)
      modifies this
      ensures State() == HandleMetrics(old(State()), e).after
      ensures raised == HandleMetrics(old(State()), e).raised
    {
      raised := false;
      if e.kind == LLM {
        if e.durationMs.Some? {
          llmLatency := Observe(llmLatency, e.durationMs.value);
        }
        if e.totalTokens.Some? {
          if e.totalTokens.value < 0 {
            raised := true;
            return;
          }
          totalTokens := totalTokens + e.totalTokens.value;
        }
      } else if e.kind == STT {
        if e.durationMs.Some? {
          sttLatency := Observe(sttLatency, e.durationMs.value);
        }
      } else if e.kind == TTS {
        if e.durationMs.Some? {
          ttsLatency := Observe(ttsLatency, e.durationMs.value);
        }
      }
      if e.conversation.Some? {
        conversationTurns := conversationTurns + 1;
      }
    }

    /** Session start: one more active conversation. */
    method SessionStarted()
      modifies this
      ensures State() == StartSession(old(State()))
    {
      activeConversations := activeConversations + 1;
    }

    /**
     * The shutdown report: builds the usage record from the collector's summary, reads the
     * gauge for the log entry, then takes one conversation off the gauge.
     */
    method LogUsage(summary: UsageReport.UsageSummary) returns (record: UsageReport.SummaryRecord, activeAtReport: int)
      modifies this
      ensures record == UsageReport.BuildSummaryRecord(summary)
      ensures activeAtReport == old(activeConversations)
      ensures State() == EndSession(old(State()))
    {
      record := UsageReport.BuildSummaryRecord(summary);
      activeAtReport := activeConversations;
      activeConversations := activeConversations - 1;
    }
  }
}
