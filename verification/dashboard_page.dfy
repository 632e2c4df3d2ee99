/** The search screen: `handleSearch` as a transition from the store and the
    radar endpoint's answer to the new store and what the user sees.
    Loading indicators are left out. */
module DashboardPage {
  import opened Common
  import opened SearchContext

  /** The value searched for: the explicit (history) argument, else the
      keyword typed in. An absent argument is "". */
  function SearchValue(s: SessionState, val: string): (v: string)
    ensures val != "" ==> v == val
    ensures val == "" ==> v == s.keyword
  {
    if val != "" then val else s.keyword
  }

  /** `handleSearch(val)`. The history is updated before the request is
      sent, so it holds whatever the answer is. */
  function HandleSearch(s: SessionState, val: string, reply: Answer<seq<string>>): (r: Step)
    // nothing to search for: nothing happens
    ensures SearchValue(s, val) == "" ==> r == Step(s, Stay)
    // the history always records the search
    ensures SearchValue(s, val) != "" ==> r.state.history == AddToHistory(s.history, SearchValue(s, val))
    // a failed request changes nothing else and alerts
    ensures SearchValue(s, val) != "" && !(reply.Answered? && reply.ok) ==>
              && r.state == s.(history := r.state.history)
              && r.effect.Alert?
    // a successful one stores the variations and moves on
    ensures SearchValue(s, val) != "" && reply.Answered? && reply.ok ==>
              && r.state.variations == reply.payload.GetOr([])
              && r.effect == Navigate("/radar")
    // the typed keyword is cleared exactly by a successful manual search
    ensures r.state.keyword != s.keyword <==>
              s.keyword != "" && val == "" && reply.Answered? && reply.ok
    ensures SearchValue(s, val) != "" && val == "" && reply.Answered? && reply.ok ==>
              r.state.keyword == ""
    // the selection, analysis, results and link are never touched
    ensures r.state.selectedKeyword == s.selectedKeyword && r.state.analysis == s.analysis
    ensures r.state.selectedPosts == s.selectedPosts && r.state.results == s.results
    ensures r.state.affiliateLink == s.affiliateLink
  {
    var searchVal := SearchValue(s, val);
    if searchVal == "" then Step(s, Stay)
    else
      var s1 := s.(history := AddToHistory(s.history, searchVal));
      match reply
      case Unreachable =>
        Step(s1, Alert("A network error occurred. Please check your connection."))
      case Answered(ok, payload, error) =>
        if !ok then
          Step(s1, Alert(if error != "" then error else "Search failed. Please try again."))
        else
          var s2 := s1.(variations := payload.GetOr([]));
          Step(if val == "" then s2.(keyword := "") else s2, Navigate("/radar"))
  }

  /** A failed search from history still moves that keyword to the front. */
  lemma FailedSearchStillRecorded(s: SessionState, h: string, reply: Answer<seq<string>>)
    requires h != "" && !(reply.Answered? && reply.ok)
    ensures var r := HandleSearch(s, h, reply).state;
            |r.history| > 0 && r.history[0] == h && r.variations == s.variations && r.keyword == s.keyword
  {
  }
}
