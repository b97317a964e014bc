/** The single-selection toggle the storefront writes as `cur === id ? null : id`: the catalog
    filter buttons and the expanded order of the order history. */
module Selection {
  import opened Wrappers

  function Toggle(cur: Option<int>, id: int): Option<int>
  {
    if cur == Some(id) then None else Some(id)
  }

  /** Clicking the selected id clears the selection; clicking any other id (or clicking with
      nothing selected) selects it; a second click on the same id undoes the first exactly
      when the first started from nothing or from that id. */
  lemma ToggleSpec(cur: Option<int>, id: int)
    ensures Toggle(cur, id) == None <==> cur == Some(id)
    ensures cur != Some(id) ==> Toggle(cur, id) == Some(id)
    ensures Toggle(Toggle(cur, id), id) == cur <==> cur == None || cur == Some(id)
  {
  }
}
