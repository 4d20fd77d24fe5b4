/** The Perplexity runtime's payload hook. */
module Perplexity {
  import opened Wrappers
  import opened RuntimeCommon

  datatype Payload = Payload(presencePenalty: Option<real>, frequencyPenalty: Option<real>, stream: Option<bool>,
                             temperature: Option<real>, rest: Fields)

  datatype Request = Request(presencePenalty: Option<real>, frequencyPenalty: Option<real>, stream: bool,
                             temperature: Option<real>, rest: Fields)

  const DefaultFrequencyPenalty: real := 1.0

  /** Exactly one of the two penalties is sent: the presence penalty unless it is exactly 0. */
  function HandlePayload(p: Payload): Request {
    var usePresence := p.presencePenalty != Some(0.0);
    Request(
      if usePresence then p.presencePenalty else None,
      if usePresence then None
      else if p.frequencyPenalty.Some? && p.frequencyPenalty.value != 0.0 then p.frequencyPenalty
      else Some(DefaultFrequencyPenalty),
      p.stream.GetOr(true),
      if p.temperature.Some? && p.temperature.value >= 2.0 then None else p.temperature,
      p.rest)
  }

  /**
   * A presence penalty other than 0, or none at all, is sent without a frequency penalty; a
   * presence penalty of 0 is dropped for the frequency penalty, with 0 or undefined becoming 1.
   */
  lemma PenaltySelection(p: Payload)
    ensures var r := HandlePayload(p);
      (p.presencePenalty != Some(0.0) ==> r.presencePenalty == p.presencePenalty && r.frequencyPenalty.None?)
      && (p.presencePenalty == Some(0.0) ==> r.presencePenalty.None? && r.frequencyPenalty.Some?)
      && (p.presencePenalty == Some(0.0) && (p.frequencyPenalty.None? || p.frequencyPenalty == Some(0.0)) ==>
            r.frequencyPenalty == Some(1.0))
      && (p.presencePenalty == Some(0.0) && p.frequencyPenalty.Some? && p.frequencyPenalty.value != 0.0 ==>
            r.frequencyPenalty == p.frequencyPenalty)
      && !(r.presencePenalty.Some? && r.frequencyPenalty.Some?)
  {
  }

  /** A temperature of 2 or more is dropped, any other is kept; streaming defaults to on; the rest passes through. */
  lemma TemperatureAndStream(p: Payload)
    ensures var r := HandlePayload(p);
      (r.temperature.Some? ==> r.temperature == p.temperature && r.temperature.value < 2.0)
      && (p.temperature.Some? && p.temperature.value < 2.0 ==> r.temperature == p.temperature)
      && (p.temperature.Some? && p.temperature.value >= 2.0 ==> r.temperature.None?)
      && (p.stream.None? ==> r.stream)
      && (p.stream.Some? ==> r.stream == p.stream.value)
      && r.rest == p.rest
  {
  }
}
