/** The variation screen: picking a variation, reloading the variations of
    a history entry, and continuing to the analysis, each a transition from
    the store and the endpoint's answer. Loading indicators are left out. */
module RadarPage {
  import opened Common
  import opened SearchContext

  /** `handleSelect(v)`. */
  function HandleSelect(s: SessionState, v: string): (r: SessionState)
    ensures r.selectedKeyword == v
    ensures r.(selectedKeyword := s.selectedKeyword) == s
  {
    s.(selectedKeyword := v)
  }

  /** Only the last pick counts. */
  lemma SelectLastWins(s: SessionState, v: string, w: string)
    ensures HandleSelect(HandleSelect(s, v), w) == HandleSelect(s, w)
  {
  }

  /** `fetchVariationsForHistory(h)`. The history itself is not updated. */
  function FetchVariationsForHistory(s: SessionState, h: string, reply: Answer<seq<string>>): (r: Step)
    ensures reply.Answered? && reply.ok ==>
              && r.state == s.(variations := reply.payload.GetOr([]), keyword := h, selectedKeyword := "")
              && r.effect == Stay
    ensures !(reply.Answered? && reply.ok) ==> r.state == s && r.effect.Alert?
    ensures reply.Answered? && !reply.ok && reply.error != "" ==> r.effect == Alert(reply.error)
    ensures r.state.history == s.history
  {
    match reply
    case Unreachable => Step(s, Alert("Network error."))
    case Answered(ok, payload, error) =>
      if ok then Step(s.(variations := payload.GetOr([]), keyword := h, selectedKeyword := ""), Stay)
      else Step(s, Alert(if error != "" then error else "Failed to load variations."))
  }

  /** `handleContinue`. `reply` is the analysis endpoint's body, `None` when
      the request or its decoding threw. For a non-empty keyword that
      endpoint always answers with an analysis (see `AnalysisRoute.Handle`). */
  function HandleContinue(s: SessionState, reply: Option<AnalysisData>): (r: Step)
    ensures s.selectedKeyword == "" ==> r == Step(s, Stay)
    ensures s.selectedKeyword != "" && reply.Some? ==>
              r == Step(s.(analysis := reply), Navigate("/analysis"))
    ensures reply.None? ==> r == Step(s, Stay)
  {
    if s.selectedKeyword == "" then Step(s, Stay)
    else match reply
      case None => Step(s, Stay)
      case Some(a) => Step(s.(analysis := Some(a)), Navigate("/analysis"))
  }
}
