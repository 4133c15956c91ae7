/**
 * The collapsible reference-vocabulary lists shown by both pages (sizes,
 * sub-categories, colours, neck types). The vocabularies themselves come from a
 * static data module and are opaque sequences here.
 */
module Vocabulary {

  /** Number of entries shown while a list is collapsed (`slice(0, 6)`). */
  const CollapsedLength := 6

  /**
   * The entries a vocabulary list shows: the whole list when its show-all flag
   * is on, otherwise `slice(0, 6)`, which stops early on a shorter list.
   */
  function Visible<T>(all: seq<T>, showAll: bool): (r: seq<T>)
    ensures r <= all
    ensures |r| == if showAll || |all| <= CollapsedLength then |all| else CollapsedLength
    ensures |all| <= CollapsedLength ==> r == all
  {
    if showAll then all
    else if |all| <= CollapsedLength then all
    else all[..CollapsedLength]
  }
}
