/**
  The television focus rule of the channel grid: one remembered focused id,
  set when a card gains focus and cleared when that same card loses it.
*/
module Focus {
  import opened Wrappers
  import opened Catalog
  import Navigation

  /** Whether the card for `id` at position `index` shows as focused; with nothing remembered the first card does. */
  predicate Focused(focusedId: Option<int>, id: int, index: int)
    ensures Focused(focusedId, id, index) && focusedId.Some? ==> id == focusedId.value
    ensures Focused(focusedId, id, index) && focusedId.None? ==> index == 0
  {
    focusedId == Some(id) || (focusedId.None? && index == 0)
  }

  /** The remembered id after the card `id` gains focus. */
  function AfterFocus(focusedId: Option<int>, id: int): (f: Option<int>)
    ensures forall index :: Focused(f, id, index)
    ensures forall other, index :: other != id ==> !Focused(f, other, index)
  {
    Some(id)
  }

  /** The remembered id after the card `id` loses focus: cleared only if it is still that card's. */
  function AfterBlur(focusedId: Option<int>, id: int): (f: Option<int>)
    ensures focusedId == Some(id) ==> f.None?
    ensures focusedId != Some(id) ==> f == focusedId
  {
    if focusedId == Some(id) then None else focusedId
  }

  /** With distinct ids, at most one card of the grid shows as focused, whatever is remembered. */
  lemma AtMostOneFocused(channels: seq<Channel>, focusedId: Option<int>, i: int, j: int)
    requires Navigation.DistinctIds(channels)
    requires 0 <= i < |channels| && 0 <= j < |channels|
    requires Focused(focusedId, channels[i].id, i) && Focused(focusedId, channels[j].id, j)
    ensures i == j
  {
  }

  /** After focusing card k (distinct ids), card k and only card k shows as focused. */
  lemma FocusSelectsOne(channels: seq<Channel>, focusedId: Option<int>, k: int, n: int)
    requires Navigation.DistinctIds(channels)
    requires 0 <= k < |channels| && 0 <= n < |channels|
    ensures Focused(AfterFocus(focusedId, channels[k].id), channels[n].id, n) <==> n == k
  {
  }

  /** Blurring the focused card returns to the default (the first card); a late blur of another card changes nothing. */
  lemma BlurAfterFocus(focusedId: Option<int>, id: int, other: int)
    requires other != id
    ensures AfterBlur(AfterFocus(focusedId, id), id) == None
    ensures AfterBlur(AfterFocus(focusedId, id), other) == Some(id)
  {
  }

  /** The grid's focus state. */
  class ChannelGrid {
    var focusedId: Option<int>

    constructor ()
      ensures focusedId == None
    {
      focusedId := None;
    }

    /** `isFocused` for the card at `index`. */
    predicate IsFocused(item: Channel, index: int)
      reads this
    {
      Focused(focusedId, item.id, index)
    }

    /** `onFocus`. */
    method OnFocus(item: Channel)
      modifies this
      ensures focusedId == AfterFocus(old(focusedId), item.id)
    {
      focusedId := Some(item.id);
    }

    /** `onBlur`. */
    method OnBlur(item: Channel)
      modifies this
      ensures focusedId == AfterBlur(old(focusedId), item.id)
    {
      if focusedId == Some(item.id) {
        focusedId := None;
      }
    }
  }
}
