/** The filter state of client/src/pages/Dashboard.jsx, fed by the assistant and the job feed. */
module Dashboard {
  import opened FilterValues
  import AiAssistant

  /** A truthy `clear` entry asks for a reset. */
  predicate AsksClear(incoming: Filters) {
    Present(incoming, "clear")
  }

  /** handleFiltersFromAssistant: reset on `clear`, else `{...prev, ...incoming}`. */
  function MergeAssistantFilters(prev: Filters, incoming: Filters): (r: Filters)
    ensures AsksClear(incoming) ==> r == map[]
    ensures !AsksClear(incoming) ==>
      && (forall k :: k in r <==> k in prev || k in incoming)
      && (forall k :: k in incoming ==> r[k] == incoming[k])
      && (forall k :: k in prev && k !in incoming ==> r[k] == prev[k])
  {
    if AsksClear(incoming) then map[] else prev + incoming
  }

  /** Merging nothing changes nothing. */
  lemma MergeEmpty(prev: Filters)
    ensures MergeAssistantFilters(prev, map[]) == prev
  {
    assert prev + map[] == prev;
  }

  /** The assistant's clear reply empties the dashboard filters, whatever they were. */
  lemma ClearReplyResets(prev: Filters)
    ensures MergeAssistantFilters(prev, AiAssistant.ClearFlag) == map[]
  {
    assert "clear" in AiAssistant.ClearFlag;
  }

  /** Merging is idempotent: the same update applied twice gives what it gave once. */
  lemma MergeIdempotent(prev: Filters, incoming: Filters)
    ensures MergeAssistantFilters(MergeAssistantFilters(prev, incoming), incoming) == MergeAssistantFilters(prev, incoming)
  {
    if AsksClear(incoming) {
      assert MergeAssistantFilters(map[], incoming) == map[];
    } else {
      var once := prev + incoming;
      assert once + incoming == once;
    }
  }

  /** The job feed's clear callback: the filters become empty. */
  function OnClearFilters(prev: Filters): (r: Filters)
    ensures forall k :: k !in r
  {
    map[]
  }
}
