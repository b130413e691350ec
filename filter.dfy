/**
 * The project filter: buttons carrying a `data-filter` value and cards
 * carrying a `data-category`; clicking a button makes it the only active
 * one and shows exactly the cards its value selects.
 */
module Filter {
  import opened Wrappers
  import Dom

  /**
   * `val === "all" || cat === val`. The value can be `undefined` (None);
   * a card's category is always a string, since cards are selected by
   * the presence of `data-category`.
   */
  function Shown(val: Option<string>, cat: string): (b: bool)
    ensures b ==> val.Some?
    ensures val == Some("all") ==> b
    ensures val == Some(cat) ==> b
    ensures b && val != Some("all") ==> val.value == cat
  {
    val == Some("all") || val == Some(cat)
  }

  /** "all" shows every card; any other value shows exactly the cards whose category equals it; `undefined` shows none. */
  lemma ShownExactly(val: Option<string>, cat: string)
    ensures val == Some("all") ==> Shown(val, cat)
    ensures val.Some? && val.value != "all" ==> (Shown(val, cat) <==> cat == val.value)
    ensures val.None? ==> !Shown(val, cat)
  {
  }

  /**
   * The value a click applies, `btn.dataset.filter || "all"`: a missing
   * or empty `data-filter` means "all".
   */
  function ClickValue(filter: Option<string>): (v: string)
    ensures v != ""
    ensures filter.Some? && filter.value != "" ==> v == filter.value
    ensures filter.None? || filter.value == "" ==> v == "all"
  {
    if filter.Some? && filter.value != "" then filter.value else "all"
  }

  /**
   * The value initialisation applies: the first active button's
   * `data-filter` as it is (possibly `undefined`), or "all" when no
   * button is active.
   */
  function InitialValue(active: seq<bool>, filters: seq<Option<string>>): (v: Option<string>)
    requires |active| == |filters|
    ensures (forall k :: 0 <= k < |active| ==> !active[k]) ==> v == Some("all")
    ensures forall k :: 0 <= k < |active| && active[k] && (forall j :: 0 <= j < k ==> !active[j]) ==> v == filters[k]
  {
    var i := Dom.IndexOfFirst(active);
    if i >= 0 then filters[i] else Some("all")
  }

  /**
   * Initialisation and a click on the first active button disagree exactly
   * when that button's `data-filter` is missing or empty: the click shows
   * every card, initialisation shows none (missing) or only the cards whose
   * category is the empty string (empty).
   */
  lemma InitAndClickDiffer(active: seq<bool>, filters: seq<Option<string>>, b: nat, cat: string)
    requires |active| == |filters| && b < |active| && active[b]
    requires forall j :: 0 <= j < b ==> !active[j]
    ensures filters[b].Some? && filters[b].value != "" ==>
      (Shown(InitialValue(active, filters), cat) <==> Shown(Some(ClickValue(filters[b])), cat))
    ensures filters[b].None? ==>
      !Shown(InitialValue(active, filters), cat) && Shown(Some(ClickValue(filters[b])), cat)
    ensures filters[b] == Some("") ==>
      (Shown(InitialValue(active, filters), cat) <==> cat == "") && Shown(Some(ClickValue(filters[b])), cat)
  {
  }

  /** The filter buttons and the project cards of `#projects`. */
  class ProjectFilter {
    /** The `active` class of each `.filter-btn`. */
    const buttons: array<bool>
    /** Each button's `data-filter`, `undefined` when the attribute is absent. */
    const filters: seq<Option<string>>
    /** Whether each card is displayed (`display: ""`) rather than hidden (`display: "none"`). */
    const cards: array<bool>
    /** Each card's `data-category`. */
    const categories: seq<string>
    /** The handlers exist only when there is at least one button and one card. */
    const wired: bool

    ghost predicate Valid()
      reads this
    {
      |filters| == buttons.Length && |categories| == cards.Length && buttons != cards &&
      wired == (buttons.Length > 0 && cards.Length > 0)
    }

    /** Every card shows exactly when `val` selects its category. */
    ghost predicate Filtered(val: Option<string>)
      reads this, cards
      requires Valid()
    {
      forall k :: 0 <= k < cards.Length ==> (cards[k] <==> Shown(val, categories[k]))
    }

    /** `initProjectFilters`: apply the filter of the first active button, or "all". */
    constructor (buttons: array<bool>, filters: seq<Option<string>>, cards: array<bool>, categories: seq<string>)
      requires |filters| == buttons.Length && |categories| == cards.Length && buttons != cards
      modifies cards
      ensures Valid()
      ensures this.buttons == buttons && this.filters == filters
      ensures this.cards == cards && this.categories == categories
      ensures wired ==> Filtered(InitialValue(buttons[..], filters))
      ensures !wired ==> cards[..] == old(cards[..])
      ensures buttons[..] == old(buttons[..])
    {
      this.buttons := buttons;
      this.filters := filters;
      this.cards := cards;
      this.categories := categories;
      wired := buttons.Length > 0 && cards.Length > 0;
      new;
      if wired {
        var i := Dom.FindIndex(buttons);
        ApplyFilter(if i >= 0 then filters[i] else Some("all"));
      }
    }

    /** `applyFilter(val)`: show or hide every card. */
    method ApplyFilter(val: Option<string>)
      requires Valid()
      modifies cards
      ensures Filtered(val)
    {
      for k := 0 to cards.Length
        invariant forall j :: 0 <= j < k ==> (cards[j] <==> Shown(val, categories[j]))
      {
        cards[k] := Shown(val, categories[k]);
      }
    }

    /** A click on button `b`: it alone becomes active and its value is applied. */
    method Click(b: nat)
      requires Valid() && b < buttons.Length
      modifies buttons, cards
      ensures wired ==> forall k :: 0 <= k < buttons.Length ==> (buttons[k] <==> k == b)
      ensures wired ==> Filtered(Some(ClickValue(filters[b])))
      ensures !wired ==> buttons[..] == old(buttons[..]) && cards[..] == old(cards[..])
    {
      if !wired {
        return;
      }
      for k := 0 to buttons.Length
        invariant forall j :: 0 <= j < k ==> !buttons[j]
      {
        buttons[k] := false;
      }
      buttons[b] := true;
      ApplyFilter(Some(ClickValue(filters[b])));
    }
  }
}
