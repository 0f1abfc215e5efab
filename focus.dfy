/** The focus list: which ticker is selected, the mobile navigator's option
    labels and label-to-ticker map, the navigator's default position, and
    the lookup of the selected item for the deep-dive panel. */
module Focus {
  import opened Basics
  import opened Display

  /** One entry of the focus list, reduced to the two keys these rules read. */
  datatype FocusItem = FocusItem(ticker: Field, verdict: Field)

  /** `[item.get('ticker') for item in focus_items]`. */
  function TickerList(items: seq<FocusItem>): (r: seq<Option<string>>)
    ensures |r| == |items|
    ensures forall i :: 0 <= i < |items| ==> r[i] == items[i].ticker.Value()
  {
    seq(|items|, i requires 0 <= i < |items| => items[i].ticker.Value())
  }

  // ---------------------------------------------------------------------
  // Navigator labels

  const GreenCircle := "\U{1F7E2}"
  const Eyes := "\U{1F440}"

  /** The verdict icon: a green circle when "BUY" occurs in the upper-cased
      verdict, eyes otherwise. */
  function Icon(verdict: string): (r: string)
    ensures r == GreenCircle <==> Contains(Upper(verdict), "BUY")
    ensures r == GreenCircle || r == Eyes
  {
    if Contains(Upper(verdict), "BUY") then GreenCircle else Eyes
  }

  /** `f"{mask_ticker(t)} {icon} {v}"` with `v = item.get('verdict', 'WATCH')`. */
  function OptionLabel(ticker: string, verdict: Field): string {
    var v := verdict.StrOr("WATCH");
    MaskTicker(Some(ticker)) + " " + Icon(v) + " " + v
  }

  /** The item gets an option, and the option is `option`. */
  predicate Produces(item: FocusItem, option: string) {
    item.ticker.Truthy() && OptionLabel(item.ticker.s, item.verdict) == option
  }

  /** The options appended for a list of items, in order; an item whose
      ticker is falsy is skipped. */
  function NavOptions(items: seq<FocusItem>): seq<string>
    decreases |items|
  {
    if items == [] then []
    else
      var last := items[|items| - 1];
      NavOptions(items[..|items| - 1])
        + (if last.ticker.Truthy() then [OptionLabel(last.ticker.s, last.verdict)] else [])
  }

  /** `ticker_map` after the items: each label maps to the ticker written
      for it last. */
  function NavMap(items: seq<FocusItem>): map<string, string>
    decreases |items|
  {
    if items == [] then map[]
    else
      var last := items[|items| - 1];
      var m := NavMap(items[..|items| - 1]);
      if last.ticker.Truthy() then m[OptionLabel(last.ticker.s, last.verdict) := last.ticker.s] else m
  }

  /** The navigator loop: append a label per item with a truthy ticker and
      record which ticker it stands for. */
  method BuildNavigator(items: seq<FocusItem>) returns (options: seq<string>, tickerMap: map<string, string>)
    ensures options == NavOptions(items)
    ensures tickerMap == NavMap(items)
  {
    options, tickerMap := [], map[];
    var i := 0;
    while i < |items|
      invariant 0 <= i <= |items|
      invariant options == NavOptions(items[..i])
      invariant tickerMap == NavMap(items[..i])
    {
      assert items[..i + 1][..i] == items[..i];
      var item := items[i];
      if item.ticker.Truthy() {
        var option := OptionLabel(item.ticker.s, item.verdict);
        options := options + [option];
        tickerMap := tickerMap[option := item.ticker.s];
      }
      i := i + 1;
    }
    assert items[..|items|] == items;
  }

  /** Every option is a key of the map, and every key is an option. */
  lemma {:induction false} OptionsAreKeys(items: seq<FocusItem>)
    ensures forall o :: o in NavOptions(items) <==> o in NavMap(items)
    decreases |items|
  {
    if items != [] {
      OptionsAreKeys(items[..|items| - 1]);
    }
  }

  /** An item with a truthy ticker has its label among the options. */
  lemma {:induction false} EveryTickerHasOption(items: seq<FocusItem>, j: nat)
    requires j < |items| && items[j].ticker.Truthy()
    ensures OptionLabel(items[j].ticker.s, items[j].verdict) in NavOptions(items)
    decreases |items|
  {
    if j < |items| - 1 {
      EveryTickerHasOption(items[..|items| - 1], j);
    }
  }

  /** Every option is the label of an item with a truthy ticker. */
  lemma {:induction false} EveryOptionHasTicker(items: seq<FocusItem>, o: string)
    requires o in NavOptions(items)
    ensures exists j :: 0 <= j < |items| && Produces(items[j], o)
    decreases |items|
  {
    var init := items[..|items| - 1];
    var last := items[|items| - 1];
    if o in NavOptions(init) {
      EveryOptionHasTicker(init, o);
      var j :| 0 <= j < |init| && Produces(init[j], o);
      assert items[j] == init[j];
    } else {
      assert Produces(items[|items| - 1], o);
    }
  }

  /** A label maps to the ticker of the last item that produced it. */
  lemma {:induction false} LastProducerWins(items: seq<FocusItem>, option: string, j: nat)
    requires j < |items| && Produces(items[j], option)
    requires forall k :: j < k < |items| ==> !Produces(items[k], option)
    ensures option in NavMap(items) && NavMap(items)[option] == items[j].ticker.s
    decreases |items|
  {
    var init, last := items[..|items| - 1], items[|items| - 1];
    SplitLast(items);
    NavStep(init, last);
    if j < |items| - 1 {
      forall k | j < k < |init| ensures !Produces(init[k], option) {
        assert init[k] == items[k];
      }
      assert init[j] == items[j];
      LastProducerWins(init, option, j);
      assert !Produces(last, option);
    }
  }

  lemma SplitLast(items: seq<FocusItem>)
    requires items != []
    ensures items[..|items| - 1] + [items[|items| - 1]] == items
  {
  }

  /** One more item adds at most its own option and map entry. */
  lemma NavStep(items: seq<FocusItem>, x: FocusItem)
    ensures NavOptions(items + [x])
         == NavOptions(items) + (if x.ticker.Truthy() then [OptionLabel(x.ticker.s, x.verdict)] else [])
    ensures NavMap(items + [x])
         == if x.ticker.Truthy() then NavMap(items)[OptionLabel(x.ticker.s, x.verdict) := x.ticker.s] else NavMap(items)
  {
    assert (items + [x])[..|items|] == items;
  }

  /** When two items with different tickers produce the same label, the
      option appears twice and the earlier ticker is no value of the map:
      the navigator cannot select it. */
  lemma ShadowedTicker(a: FocusItem, b: FocusItem, option: string)
    requires a.ticker.Truthy() && b.ticker.Truthy() && a.ticker.s != b.ticker.s
    requires OptionLabel(a.ticker.s, a.verdict) == option && OptionLabel(b.ticker.s, b.verdict) == option
    ensures NavOptions([a, b]) == [option, option]
    ensures NavMap([a, b]) == map[option := b.ticker.s]
    ensures forall o :: o in NavMap([a, b]) ==> NavMap([a, b])[o] != a.ticker.s
  {
    var none: seq<FocusItem> := [];
    assert NavOptions(none) == [] && NavMap(none) == map[];
    NavStep(none, a);
    assert none + [a] == [a];
    NavStep([a], b);
    assert [a] + [b] == [a, b];
    Overwritten(option, a.ticker.s, b.ticker.s);
  }

  lemma Overwritten(k: string, x: string, y: string)
    ensures map[][k := x][k := y] == map[k := y]
  {
  }

  /** Tickers with the same first letter and length under the same verdict
      collide: "AB" and "AC" both give "A* <icon> BUY". */
  lemma SameLabelForAbAndAc()
    ensures OptionLabel("AB", Text("BUY")) == OptionLabel("AC", Text("BUY"))
  {
    StripIdentity("AB");
    StripIdentity("AC");
    MaskRevealsOnlyFirst("AB", "AC");
  }

  // ---------------------------------------------------------------------
  // Default index of the navigator

  /** `ticker_map.get(option)`. */
  function MapGet(m: map<string, string>, option: string): Option<string> {
    if option in m then Some(m[option]) else None
  }

  /** The reverse lookup: the first position whose option maps to the
      current ticker, or 0 when none does. */
  method DefaultIndex(options: seq<string>, tickerMap: map<string, string>, current: Option<string>)
    returns (index: nat)
    ensures (exists i :: 0 <= i < |options| && MapGet(tickerMap, options[i]) == current) ==>
              index < |options| && MapGet(tickerMap, options[index]) == current
    ensures forall j :: 0 <= j < index && j < |options| ==> MapGet(tickerMap, options[j]) != current
    ensures (forall i :: 0 <= i < |options| ==> MapGet(tickerMap, options[i]) != current) ==> index == 0
  {
    index := 0;
    var i := 0;
    while i < |options|
      invariant 0 <= i <= |options|
      invariant index == 0
      invariant forall j :: 0 <= j < i ==> MapGet(tickerMap, options[j]) != current
    {
      if MapGet(tickerMap, options[i]) == current {
        index := i;
        return;
      }
      i := i + 1;
    }
  }

  // ---------------------------------------------------------------------
  // The selected item

  /** No item before position `i` has been passed over by the search for
      `sel` without a match: each has a `ticker` key other than `sel`. */
  predicate PassedOver(items: seq<FocusItem>, i: int, sel: Option<string>)
    requires 0 <= i <= |items|
  {
    forall j :: 0 <= j < i ==> !items[j].ticker.Missing? && items[j].ticker.Value() != sel
  }

  /** `next((i for i in focus_items if i['ticker'] == sel), None)`: the first
      item whose ticker is `sel`; an item without a `ticker` key reached
      before any match raises KeyError. */
  function FindSelected(items: seq<FocusItem>, sel: Option<string>): (r: Result<Option<FocusItem>>)
    ensures r.Ok? && r.value.Some? ==>
              exists i :: 0 <= i < |items| && items[i] == r.value.value
                          && items[i].ticker.Value() == sel && PassedOver(items, i, sel)
    ensures r == Ok(None) <==> PassedOver(items, |items|, sel)
    ensures r.Err? <==> exists i :: 0 <= i < |items| && items[i].ticker.Missing? && PassedOver(items, i, sel)
    ensures r.Err? ==> r.error == KeyError
  {
    if items == [] then Ok(None)
    else if items[0].ticker.Missing? then
      assert PassedOver(items, 0, sel);
      Err(KeyError)
    else if items[0].ticker.Value() == sel then
      assert PassedOver(items, 0, sel);
      Ok(Some(items[0]))
    else
      var r := FindSelected(items[1..], sel);
      PassedOverCons(items, sel);
      r
  }

  /** Past a non-matching first item, passing over a prefix of the items is
      passing over a prefix of the rest. */
  lemma PassedOverCons(items: seq<FocusItem>, sel: Option<string>)
    requires items != [] && !items[0].ticker.Missing? && items[0].ticker.Value() != sel
    ensures forall i :: 1 <= i <= |items| ==> (PassedOver(items, i, sel) <==> PassedOver(items[1..], i - 1, sel))
  {
    forall i | 1 <= i <= |items|
      ensures PassedOver(items, i, sel) <==> PassedOver(items[1..], i - 1, sel)
    {
      if PassedOver(items[1..], i - 1, sel) {
        forall j | 0 <= j < i ensures !items[j].ticker.Missing? && items[j].ticker.Value() != sel {
          if j > 0 { assert items[j] == items[1..][j - 1]; }
        }
      }
    }
  }

  /** When every item has a ticker key, a selection taken from the ticker
      list is found. */
  lemma {:induction false} SelectionIsFound(items: seq<FocusItem>, sel: Option<string>)
    requires forall i :: 0 <= i < |items| ==> !items[i].ticker.Missing?
    requires sel in TickerList(items)
    ensures FindSelected(items, sel).Ok? && FindSelected(items, sel).value.Some?
    decreases |items|
  {
    if items[0].ticker.Value() != sel {
      var k :| 0 <= k < |items| && TickerList(items)[k] == sel;
      assert TickerList(items[1..])[k - 1] == sel;
      SelectionIsFound(items[1..], sel);
    }
  }

  // ---------------------------------------------------------------------
  // The session's selection

  /** `st.session_state.focus_selected`: whether the key is set, and its
      value, where None is Python's `None`. */
  class FocusSession {
    var hasSelection: bool
    var selected: Option<string>

    constructor()
      ensures !hasSelection && selected == None
    {
      hasSelection := false;
      selected := None;
    }

    /** A selection that is unset or not among the tickers resets to the
        first ticker. */
    method InitSelection(tickers: seq<Option<string>>)
      modifies this
      ensures tickers != [] ==> hasSelection && selected in tickers
      ensures old(hasSelection) && old(selected) in tickers ==>
                hasSelection == old(hasSelection) && selected == old(selected)
      ensures (!old(hasSelection) || old(selected) !in tickers) && tickers != [] ==> selected == tickers[0]
      ensures tickers == [] ==> hasSelection == old(hasSelection) && selected == old(selected)
    {
      if !hasSelection || selected !in tickers {
        if tickers != [] {
          hasSelection := true;
          selected := tickers[0];
        }
      }
    }

    /** `if selected_label: focus_selected = ticker_map[selected_label]`. */
    method SelectFromNavigator(option: Option<string>, tickerMap: map<string, string>)
      returns (error: Option<Error>)
      modifies this
      ensures option.Some? && option.value != "" && option.value in tickerMap ==>
                error == None && hasSelection && selected == Some(tickerMap[option.value])
      ensures option.Some? && option.value != "" && option.value !in tickerMap ==>
                error == Some(KeyError) && hasSelection == old(hasSelection) && selected == old(selected)
      ensures option.None? || option.value == "" ==>
                error == None && hasSelection == old(hasSelection) && selected == old(selected)
    {
      error := None;
      if option.Some? && option.value != "" {
        if option.value in tickerMap {
          hasSelection := true;
          selected := Some(tickerMap[option.value]);
        } else {
          error := Some(KeyError);
        }
      }
    }

    /** A desktop card's select button. */
    method SelectCard(ticker: Option<string>)
      modifies this
      ensures hasSelection && selected == ticker
    {
      hasSelection := true;
      selected := ticker;
    }

    /** One pass of the mobile navigator in which the user keeps the option
        it opens on: a selection that some option maps to stays, any other
        selection moves to the ticker of the first option. */
    method NavigatorRound(items: seq<FocusItem>)
      modifies this
      ensures var options, m := NavOptions(items), NavMap(items);
              (exists i :: 0 <= i < |options| && MapGet(m, options[i]) == old(selected)) ==>
                hasSelection && selected == old(selected)
      ensures var options, m := NavOptions(items), NavMap(items);
              options != [] && (forall i :: 0 <= i < |options| ==> MapGet(m, options[i]) != old(selected)) ==>
                hasSelection && selected == MapGet(m, options[0])
      ensures NavOptions(items) == [] ==> hasSelection == old(hasSelection) && selected == old(selected)
    {
      var options, tickerMap := BuildNavigator(items);
      OptionsAreKeys(items);
      var index := DefaultIndex(options, tickerMap, selected);
      if options != [] {
        assert options[index] in tickerMap;
        EveryOptionHasTicker(items, options[index]);
        var error := SelectFromNavigator(Some(options[index]), tickerMap);
      }
    }
  }
}
