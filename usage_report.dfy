/**
 * The session usage summary built at shutdown: one optional sub-record per modality, present
 * exactly when the usage summary has that modality, with missing inner figures reported as 0.
 */
module UsageReport {
  import opened Wrappers

  /** LLM usage as read from the usage collector; each figure may be missing. */
  datatype LlmUsage = LlmUsage(totalTokens: Option<int>, durationMs: Option<int>)

  /** Speech-to-text or text-to-speech usage; the duration may be missing. */
  datatype SpeechUsage = SpeechUsage(durationMs: Option<int>)

  /** The collector's summary; a missing modality is `None`. */
  datatype UsageSummary = UsageSummary(llm: Option<LlmUsage>, stt: Option<SpeechUsage>, tts: Option<SpeechUsage>)

  datatype LlmRecord = LlmRecord(totalTokens: int, durationMs: int)
  datatype SpeechRecord = SpeechRecord(durationMs: int)

  /** The logged record; a `None` sub-record is JSON `null`. */
  datatype SummaryRecord = SummaryRecord(llm: Option<LlmRecord>, stt: Option<SpeechRecord>, tts: Option<SpeechRecord>)

  function SpeechRecordOf(u: SpeechUsage): SpeechRecord {
    SpeechRecord(u.durationMs.GetOr(0))
  }

  function BuildSummaryRecord(s: UsageSummary): (r: SummaryRecord)
    ensures r.llm.Some? <==> s.llm.Some?
    ensures r.stt.Some? <==> s.stt.Some?
    ensures r.tts.Some? <==> s.tts.Some?
    ensures s.llm.Some? ==> r.llm.value.totalTokens == (if s.llm.value.totalTokens.Some? then s.llm.value.totalTokens.value else 0)
    ensures s.llm.Some? ==> r.llm.value.durationMs == (if s.llm.value.durationMs.Some? then s.llm.value.durationMs.value else 0)
    ensures s.stt.Some? ==> r.stt.value.durationMs == (if s.stt.value.durationMs.Some? then s.stt.value.durationMs.value else 0)
    ensures s.tts.Some? ==> r.tts.value.durationMs == (if s.tts.value.durationMs.Some? then s.tts.value.durationMs.value else 0)
  {
    SummaryRecord(
      if s.llm.Some? then Some(LlmRecord(s.llm.value.totalTokens.GetOr(0), s.llm.value.durationMs.GetOr(0))) else None,
      if s.stt.Some? then Some(SpeechRecordOf(s.stt.value)) else None,
      if s.tts.Some? then Some(SpeechRecordOf(s.tts.value)) else None)
  }

  /**
   * Absence is not zero: a summary without a modality and one whose modality is present with
   * all figures 0 give different records.
   */
  lemma AbsenceIsNotZero(s: UsageSummary)
    requires s.stt.None?
    ensures BuildSummaryRecord(s) != BuildSummaryRecord(s.(stt := Some(SpeechUsage(Some(0)))))
    ensures BuildSummaryRecord(s.(stt := Some(SpeechUsage(None)))).stt == Some(SpeechRecord(0))
  {
  }
}
