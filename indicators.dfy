/** The indicator state machine of the chart (TVChartContainer/IndicatorManager.ts):
    a table of indicator lists under fixed keys, where each indicator is
    visible or hidden and may carry the entity id of the study the chart
    created for it. The chart itself is not modelled: every call the manager
    makes on it is appended to `calls`, and the asynchronous result of
    `createStudy` arrives through `StudyCreated`. */
module Indicators {
  import opened Js

  /** An indicator's place: its key and its position in that key's list. */
  type Slot = (string, nat)

  datatype Config = Config(studyName: string, isOverlay: bool, inputs: Option<seq<(string, int)>>)

  datatype Indicator = Indicator(name: string, isVisible: bool, config: Config, entityId: Option<string>)

  /** What the manager asks of the chart. A creation names the slot whose
      indicator its `.then` continuation updates. */
  datatype ChartCall =
    | CreateStudy(slot: Slot, studyName: string, isOverlay: bool, inputs: Option<seq<(string, int)>>)
    | SetVisible(id: string, visible: bool)
    | RemoveEntity(id: string)

  /** `entityId` is truthy: set, and not the empty string. */
  predicate Present(entityId: Option<string>)
  {
    entityId.Some? && entityId.value != ""
  }

  // ------------------------------------------------------------ defaults

  /** The periods of the moving averages. */
  const Periods: seq<int> := [5, 10, 30, 60]

  /** `[5, 10, 30, 60].map(len => ...)`: one hidden overlay per period, named
      `${prefix}_${len}`, with the period as input `in_0`. */
  function MovingAverages(prefix: string, studyName: string): (l: seq<Indicator>)
    ensures |l| == |Periods|
    ensures forall i :: 0 <= i < |l| ==>
      l[i] == Indicator(prefix + "_" + IntToString(Periods[i]), false, Config(studyName, true, Some([("in_0", Periods[i])])), None)
  {
    seq(|Periods|, i requires 0 <= i < |Periods| =>
      Indicator(prefix + "_" + IntToString(Periods[i]), false, Config(studyName, true, Some([("in_0", Periods[i])])), None))
  }

  /** A key whose list holds one hidden indicator of the same name. */
  function Single(name: string, studyName: string, isOverlay: bool, inputs: Option<seq<(string, int)>>): seq<Indicator>
  {
    [Indicator(name, false, Config(studyName, isOverlay, inputs), None)]
  }

  /** The keys of `DefaultIndicatorMap`, in insertion order. */
  const KeyOrder: seq<string> := ["MA", "EMA", "BOLL", "SAR", "VOL", "MACD", "KDJ", "SKDJ"]

  /** `DefaultIndicatorMap`. */
  const DefaultTable: map<string, seq<Indicator>> := map[
    "MA" := MovingAverages("MA", "Moving Average"),
    "EMA" := MovingAverages("EMA", "Moving Average Exponential"),
    "BOLL" := Single("BOLL", "Bollinger Bands", true, Some([("in_0", 20), ("in_1", 2)])),
    "SAR" := Single("SAR", "Parabolic SAR", true, None),
    "VOL" := Single("VOL", "Volume", false, None),
    "MACD" := Single("MACD", "MACD", false, None),
    "KDJ" := Single("KDJ", "Stochastic", false, None),
    "SKDJ" := Single("SKDJ", "Stochastic RSI", false, None)]

  /** `SupportIndicators`: the keys of the default table, each once, in insertion order. */
  function SupportIndicators(): (keys: seq<string>)
    ensures Distinct(keys)
    ensures forall k :: k in keys <==> k in DefaultTable
  {
    IndicesDistinct(KeyOrder);
    KeyOrder
  }

  /** The default table: MA and EMA hold four overlays each, for periods 5,
      10, 30 and 60; every other key holds one indicator of its own name. */
  lemma DefaultShape()
    ensures SupportIndicators() == ["MA", "EMA", "BOLL", "SAR", "VOL", "MACD", "KDJ", "SKDJ"]
    ensures |DefaultTable["MA"]| == 4 && |DefaultTable["EMA"]| == 4
    ensures forall k :: k in DefaultTable && k != "MA" && k != "EMA" ==> |DefaultTable[k]| == 1 && DefaultTable[k][0].name == k
  {
  }

  /** In the default table nothing is visible or created, and exactly MA,
      EMA, BOLL and SAR are overlays. */
  lemma DefaultStates()
    ensures forall k, i :: k in DefaultTable && 0 <= i < |DefaultTable[k]| ==>
      !DefaultTable[k][i].isVisible && DefaultTable[k][i].entityId.None? &&
      (DefaultTable[k][i].config.isOverlay <==> k == "MA" || k == "EMA" || k == "BOLL" || k == "SAR")
  {
  }

  /** The moving averages are named after their periods: MA_5 to MA_60 and EMA_5 to EMA_60. */
  lemma MovingAverageNames(prefix: string, studyName: string)
    ensures var l := MovingAverages(prefix, studyName);
            l[0].name == prefix + "_5" && l[1].name == prefix + "_10" &&
            l[2].name == prefix + "_30" && l[3].name == prefix + "_60"
  {
    assert IntToString(5) == "5" && IntToString(10) == "10" && IntToString(30) == "30" && IntToString(60) == "60";
  }

  /** Same length, and position by position the same name and configuration. */
  predicate SameShape(l: seq<Indicator>, d: seq<Indicator>)
  {
    |l| == |d| && forall i :: 0 <= i < |l| ==> l[i].name == d[i].name && l[i].config == d[i].config
  }

  /** The table keeps the default keys, names and configurations; only
      visibility and entity ids change. */
  predicate Shape(table: map<string, seq<Indicator>>)
  {
    table.Keys == DefaultTable.Keys && forall k :: k in table ==> SameShape(table[k], DefaultTable[k])
  }

  /** Replacing one key's list by one of the same shape keeps the table's shape. */
  lemma ShapePut(table: map<string, seq<Indicator>>, k: string, l: seq<Indicator>)
    requires Shape(table) && k in table && SameShape(l, table[k])
    ensures Shape(table[k := l])
  {
  }

  // ------------------------------------------------------------ transitions

  /** The creation request `_addIndicator` sends for an indicator. */
  function CreateCall(slot: Slot, x: Indicator): ChartCall
  {
    CreateStudy(slot, x.config.studyName, x.config.isOverlay, x.config.inputs)
  }

  /** `_addIndicator`: nothing when the indicator already has a study,
      otherwise one creation request. The indicator itself is unchanged
      until the creation resolves. */
  function AddCalls(slot: Slot, x: Indicator): (cs: seq<ChartCall>)
    ensures Present(x.entityId) <==> cs == []
    ensures !Present(x.entityId) ==> cs == [CreateCall(slot, x)]
  {
    if Present(x.entityId) then [] else [CreateCall(slot, x)]
  }

  /** `_removeIndicator`: without a study nothing happens; with one, the
      study is removed and the id cleared. */
  function Remove(x: Indicator): (r: (Indicator, seq<ChartCall>))
    ensures r.0.name == x.name && r.0.config == x.config && r.0.isVisible == x.isVisible
    ensures !Present(r.0.entityId)
    ensures Present(x.entityId) ==> r.1 == [RemoveEntity(x.entityId.value)]
    ensures !Present(x.entityId) ==> r == (x, [])
  {
    if !Present(x.entityId) then (x, []) else (x.(entityId := None), [RemoveEntity(x.entityId.value)])
  }

  /** The `.then` of `createStudy`: a falsy id changes nothing; otherwise
      the study is shown or hidden as the indicator is now, and the id is recorded. */
  function Created(x: Indicator, id: Option<string>): (r: (Indicator, seq<ChartCall>))
    ensures r.0.name == x.name && r.0.config == x.config && r.0.isVisible == x.isVisible
    ensures Present(id) ==> r.0.entityId == id && r.1 == [SetVisible(id.value, x.isVisible)]
    ensures !Present(id) ==> r == (x, [])
  {
    if !Present(id) then (x, []) else (x.(entityId := id), [SetVisible(id.value, x.isVisible)])
  }

  /** One indicator of `toggleIndicator`: its new state and the chart calls
      made for it. Names and configurations never change. */
  function Toggle(slot: Slot, x: Indicator): (r: (Indicator, seq<ChartCall>))
    ensures r.0.name == x.name && r.0.config == x.config
  {
    if x.config.isOverlay then
      if !Present(x.entityId) then (x, [])
      else (x.(isVisible := !x.isVisible), [SetVisible(x.entityId.value, !x.isVisible)])
    else if !x.isVisible && !Present(x.entityId) then
      var shown := x.(isVisible := true);
      (shown, AddCalls(slot, shown))
    else if x.isVisible && Present(x.entityId) then
      Remove(x.(isVisible := false))
    else (x, [])
  }

  /** The transitions of one toggle:
      - overlay without a study: skipped;
      - overlay with a study: visibility negated, on the chart and in the indicator;
      - other, hidden and without a study: made visible, and a study requested;
      - other, visible and with a study: hidden, and the study removed;
      - other, in either mixed state (a creation in flight): skipped. */
  lemma ToggleTransitions(slot: Slot, x: Indicator)
    ensures var r := Toggle(slot, x);
            x.config.isOverlay && !Present(x.entityId) ==> r == (x, [])
    ensures var r := Toggle(slot, x);
            x.config.isOverlay && Present(x.entityId) ==>
              r.0 == x.(isVisible := !x.isVisible) && r.1 == [SetVisible(x.entityId.value, !x.isVisible)]
    ensures var r := Toggle(slot, x);
            !x.config.isOverlay && !x.isVisible && !Present(x.entityId) ==>
              r.0 == x.(isVisible := true) && r.1 == [CreateCall(slot, r.0)]
    ensures var r := Toggle(slot, x);
            !x.config.isOverlay && x.isVisible && Present(x.entityId) ==>
              r.0 == x.(isVisible := false, entityId := None) && r.1 == [RemoveEntity(x.entityId.value)]
    ensures var r := Toggle(slot, x);
            !x.config.isOverlay && x.isVisible != Present(x.entityId) ==> r == (x, [])
  {
  }

  /** An overlay toggled twice is back where it started, and the chart saw
      its visibility flipped and flipped back. */
  lemma OverlayToggleTwice(slot: Slot, x: Indicator)
    requires x.config.isOverlay
    ensures Toggle(slot, Toggle(slot, x).0).0 == x
    ensures Present(x.entityId) ==>
      (Toggle(slot, x).1 + Toggle(slot, Toggle(slot, x).0).1 ==
       [SetVisible(x.entityId.value, !x.isVisible), SetVisible(x.entityId.value, x.isVisible)])
  {
  }

  /** A separate-pane indicator that is shown, created and hidden again
      returns to its hidden, study-less state; the chart saw one creation,
      the study's visibility set, and its removal. */
  lemma PaneShowCreateHide(slot: Slot, x: Indicator, id: Option<string>)
    requires !x.config.isOverlay && !x.isVisible && !Present(x.entityId) && x.entityId.None?
    requires Present(id)
    ensures var shown := Toggle(slot, x);
            var created := Created(shown.0, id);
            var hidden := Toggle(slot, created.0);
            hidden.0 == x &&
            shown.1 + created.1 + hidden.1 ==
              [CreateCall(slot, x.(isVisible := true)), SetVisible(id.value, true), RemoveEntity(id.value)]
  {
  }

  /** While a creation is in flight (visible, no study yet) a toggle does
      nothing, and the creation then leaves the indicator visible with its
      study: a consistent state. */
  lemma PaneToggleDuringCreation(slot: Slot, x: Indicator, id: Option<string>)
    requires !x.config.isOverlay && x.isVisible && !Present(x.entityId) && Present(id)
    ensures Toggle(slot, x) == (x, [])
    ensures Created(x, id).0.isVisible && Present(Created(x, id).0.entityId)
  {
  }

  /** The first `n` indicators of a list toggled, each on its own, in order:
      the new list and the calls made. */
  function ToggleAll(key: string, l: seq<Indicator>, n: nat): (r: (seq<Indicator>, seq<ChartCall>))
    requires n <= |l|
    ensures |r.0| == |l|
    ensures forall i :: 0 <= i < |l| ==> r.0[i] == if i < n then Toggle((key, i), l[i]).0 else l[i]
    decreases n
  {
    if n == 0 then (l, [])
    else
      var prev := ToggleAll(key, l, n - 1);
      var step := Toggle((key, n - 1), l[n - 1]);
      (prev.0[n - 1 := step.0], prev.1 + step.1)
  }

  /** Toggling one more indicator updates its position and appends its calls. */
  lemma ToggleAllStep(key: string, l: seq<Indicator>, i: nat)
    requires i < |l|
    ensures ToggleAll(key, l, i).0[i] == l[i]
    ensures var prev := ToggleAll(key, l, i);
            var step := Toggle((key, i), l[i]);
            ToggleAll(key, l, i + 1) == (prev.0[i := step.0], prev.1 + step.1)
  {
  }

  /** The creation requests of `addAllOverlayIndicators` for the first `n`
      indicators of one list: one per overlay without a study. */
  function ListCreates(key: string, l: seq<Indicator>, n: nat): seq<ChartCall>
    requires n <= |l|
    decreases n
  {
    if n == 0 then []
    else
      var x := l[n - 1];
      ListCreates(key, l, n - 1) + (if x.config.isOverlay && !Present(x.entityId) then AddCalls((key, n - 1), x) else [])
  }

  /** The creation requests of `addAllOverlayIndicators`, key by key. */
  function OverlayCreates(table: map<string, seq<Indicator>>, keys: seq<string>): seq<ChartCall>
    requires forall k :: k in keys ==> k in table
    decreases |keys|
  {
    if |keys| == 0 then []
    else
      var k := keys[|keys| - 1];
      OverlayCreates(table, keys[..|keys| - 1]) + ListCreates(k, table[k], |table[k]|)
  }

  /** Visiting one more key appends that key's creation requests. */
  lemma OverlayCreatesStep(table: map<string, seq<Indicator>>, keys: seq<string>, j: nat)
    requires j < |keys| && forall k :: k in keys ==> k in table
    ensures OverlayCreates(table, keys[..j + 1]) ==
      OverlayCreates(table, keys[..j]) + ListCreates(keys[j], table[keys[j]], |table[keys[j]]|)
  {
    assert keys[..j + 1][..j] == keys[..j];
  }

  /** A list's creation requests are exactly one per overlay without a study. */
  lemma {:induction false} ListCreatesExactly(key: string, l: seq<Indicator>, n: nat)
    requires n <= |l|
    ensures forall c :: c in ListCreates(key, l, n) <==>
      exists i :: 0 <= i < n && l[i].config.isOverlay && !Present(l[i].entityId) && c == CreateCall((key, i), l[i])
    decreases n
  {
    if n > 0 {
      ListCreatesExactly(key, l, n - 1);
    }
  }

  /** `addAllOverlayIndicators` requests a study for exactly the overlays
      without one, under the keys it visits. */
  lemma {:induction false} OverlayCreatesExactly(table: map<string, seq<Indicator>>, keys: seq<string>)
    requires forall k :: k in keys ==> k in table
    ensures forall c :: c in OverlayCreates(table, keys) <==>
      exists k, i :: k in keys && 0 <= i < |table[k]| && table[k][i].config.isOverlay &&
        !Present(table[k][i].entityId) && c == CreateCall((k, i), table[k][i])
    decreases |keys|
  {
    if |keys| > 0 {
      var init, k := keys[..|keys| - 1], keys[|keys| - 1];
      assert forall x :: x in keys <==> x in init || x == k;
      OverlayCreatesExactly(table, init);
      ListCreatesExactly(k, table[k], |table[k]|);
    }
  }

  /** `indicators.some(indicator => indicator.isVisible)`. */
  predicate AnyVisible(l: seq<Indicator>)
  {
    exists i :: 0 <= i < |l| && l[i].isVisible
  }

  /** The state `getVisibility` reports. */
  function Visibility(table: map<string, seq<Indicator>>): (v: map<string, bool>)
    ensures v.Keys == table.Keys
  {
    map k | k in table :: AnyVisible(table[k])
  }

  /** In the default table every key reports hidden. */
  lemma InitiallyHidden()
    ensures forall k :: k in Visibility(DefaultTable) ==> !Visibility(DefaultTable)[k]
  {
    DefaultStates();
  }

  /** A table of the default shape is keyed by the supported indicators. */
  lemma TableKeys(table: map<string, seq<Indicator>>)
    requires Shape(table)
    ensures forall k :: k in SupportIndicators() <==> k in table
  {
  }

  /** Writing back the indicator already in a slot leaves the table as it is. */
  lemma Unchanged(table: map<string, seq<Indicator>>, slot: Slot)
    requires slot.0 in table && slot.1 < |table[slot.0]|
    ensures table[slot.0 := table[slot.0][slot.1 := table[slot.0][slot.1]]] == table
  {
    assert table[slot.0][slot.1 := table[slot.0][slot.1]] == table[slot.0];
  }

  /** Toggling keeps every name and configuration. */
  lemma ToggleAllShape(key: string, l: seq<Indicator>, n: nat)
    requires n <= |l|
    ensures SameShape(ToggleAll(key, l, n).0, l)
  {
  }

  class IndicatorManager {
    var table: map<string, seq<Indicator>>
    /** Every call made on the chart, in order. */
    var calls: seq<ChartCall>
    /** Whether `onVisibilityChange` is set. */
    var listening: bool
    /** The states passed to `onVisibilityChange`, in order. */
    var notices: seq<map<string, bool>>

    ghost predicate Valid()
      reads this
    {
      Shape(table)
    }

    constructor ()
      ensures Valid() && table == DefaultTable && calls == [] && !listening && notices == []
    {
      table, calls, listening, notices := DefaultTable, [], false, [];
    }

    /** `getVisibility`: for every key, whether some indicator under it is visible. */
    method GetVisibility() returns (state: map<string, bool>)
      requires Valid()
      ensures state == Visibility(table)
      ensures state.Keys == table.Keys
      ensures forall k :: k in state ==> (state[k] <==> exists i :: 0 <= i < |table[k]| && table[k][i].isVisible)
    {
      var keys := SupportIndicators();
      TableKeys(table);
      state := VisibilityOf(keys);
    }

    /** The `forEach` of `getVisibility`, over the given keys. */
    method VisibilityOf(keys: seq<string>) returns (state: map<string, bool>)
      requires forall k :: k in keys ==> k in table
      ensures forall k :: k in state <==> k in keys
      ensures forall k :: k in state ==> state[k] == AnyVisible(table[k])
    {
      state := map[];
      var i := 0;
      while i < |keys|
        invariant 0 <= i <= |keys|
        invariant forall k :: k in state <==> k in keys[..i]
        invariant forall k :: k in state ==> state[k] == AnyVisible(table[k])
      {
        state := state[keys[i] := AnyVisible(table[keys[i]])];
        i := i + 1;
      }
      assert keys[..i] == keys;
    }

    /** `_emitVisibilityChange`: the current state is passed on when a listener is set. */
    method EmitVisibilityChange()
      requires Valid()
      modifies this`notices
      ensures notices == old(notices) + if listening then [Visibility(table)] else []
    {
      if listening {
        var state := GetVisibility();
        notices := notices + [state];
      }
    }

    /** `_addIndicator`. */
    method AddIndicator(slot: Slot)
      requires slot.0 in table && slot.1 < |table[slot.0]|
      modifies this`calls
      ensures calls == old(calls) + AddCalls(slot, table[slot.0][slot.1])
    {
      var x := table[slot.0][slot.1];
      if !Present(x.entityId) {
        calls := calls + [CreateCall(slot, x)];
      }
    }

    /** `_removeIndicator`. */
    method RemoveIndicator(slot: Slot)
      requires slot.0 in table && slot.1 < |table[slot.0]|
      modifies this`table, this`calls
      ensures var r := Remove(old(table)[slot.0][slot.1]);
              table == old(table)[slot.0 := old(table)[slot.0][slot.1 := r.0]] && calls == old(calls) + r.1
    {
      var x := table[slot.0][slot.1];
      if Present(x.entityId) {
        calls := calls + [RemoveEntity(x.entityId.value)];
        table := table[slot.0 := table[slot.0][slot.1 := x.(entityId := None)]];
      } else {
        Unchanged(table, slot);
      }
    }

    /** The `.then` continuation of the creation `_addIndicator` requested for
        `slot`, with the id the chart resolved it with. */
    method StudyCreated(slot: Slot, id: Option<string>)
      requires Valid() && slot.0 in table && slot.1 < |table[slot.0]|
      modifies this`table, this`calls
      ensures Valid()
      ensures var r := Created(old(table)[slot.0][slot.1], id);
              table == old(table)[slot.0 := old(table)[slot.0][slot.1 := r.0]] && calls == old(calls) + r.1
    {
      var x := table[slot.0][slot.1];
      if Present(id) {
        calls := calls + [SetVisible(id.value, x.isVisible)];
        ShapePut(table, slot.0, table[slot.0][slot.1 := x.(entityId := id)]);
        table := table[slot.0 := table[slot.0][slot.1 := x.(entityId := id)]];
      } else {
        Unchanged(table, slot);
      }
    }

    /** One pass of the `forEach` of `toggleIndicator`. */
    method ToggleOne(slot: Slot)
      requires slot.0 in table && slot.1 < |table[slot.0]|
      modifies this`table, this`calls
      ensures var r := Toggle(slot, old(table)[slot.0][slot.1]);
              table == old(table)[slot.0 := old(table)[slot.0][slot.1 := r.0]] && calls == old(calls) + r.1
    {
      var x := table[slot.0][slot.1];
      if x.config.isOverlay {
        if Present(x.entityId) {
          calls := calls + [SetVisible(x.entityId.value, !x.isVisible)];
          table := table[slot.0 := table[slot.0][slot.1 := x.(isVisible := !x.isVisible)]];
        } else {
          Unchanged(table, slot);
        }
      } else if !x.isVisible && !Present(x.entityId) {
        table := table[slot.0 := table[slot.0][slot.1 := x.(isVisible := true)]];
        AddIndicator(slot);
      } else if x.isVisible && Present(x.entityId) {
        var hidden := x.(isVisible := false);
        table := table[slot.0 := table[slot.0][slot.1 := hidden]];
        RemoveIndicator(slot);
        assert table[slot.0] == old(table)[slot.0][slot.1 := Remove(hidden).0];
      } else {
        Unchanged(table, slot);
      }
    }

    /** `toggleIndicator`: false, with nothing changed, without an active
        chart or for a name with no indicators; otherwise every indicator
        of the name is toggled in list order, no other key changes, the
        new state is announced, and the result is true. */
    method ToggleIndicator(chartActive: bool, name: string) returns (ok: bool)
      requires Valid()
      modifies this`table, this`calls, this`notices
      ensures Valid()
      ensures ok <==> chartActive && name in old(table) && old(table)[name] != []
      ensures !ok ==> table == old(table) && calls == old(calls) && notices == old(notices)
      ensures ok ==> var r := ToggleAll(name, old(table)[name], |old(table)[name]|);
                     table == old(table)[name := r.0] && calls == old(calls) + r.1 &&
                     notices == old(notices) + if listening then [Visibility(table)] else []
    {
      if !chartActive || name !in table || |table[name]| == 0 {
        return false;
      }
      ToggleList(name);
      ToggleAllShape(name, old(table)[name], |old(table)[name]|);
      ShapePut(old(table), name, table[name]);
      EmitVisibilityChange();
      ok := true;
    }

    /** The `forEach` of `toggleIndicator` over one name's list. */
    method ToggleList(name: string)
      requires name in table
      modifies this`table, this`calls
      ensures var r := ToggleAll(name, old(table)[name], |old(table)[name]|);
              table == old(table)[name := r.0] && calls == old(calls) + r.1
    {
      ghost var l0 := table[name];
      var n := |table[name]|;
      var i := 0;
      while i < n
        invariant 0 <= i <= n == |l0|
        invariant name in table && table == old(table)[name := table[name]]
        invariant table[name] == ToggleAll(name, l0, i).0
        invariant calls == old(calls) + ToggleAll(name, l0, i).1
      {
        ToggleAllStep(name, l0, i);
        ToggleOne((name, i));
        i := i + 1;
      }
    }

    /** `addAllOverlayIndicators`: without an active chart nothing happens;
        otherwise a study is requested for every overlay without one, key
        by key in table order. No indicator changes until a creation resolves. */
    method AddAllOverlayIndicators(chartActive: bool)
      requires Valid()
      modifies this`calls
      ensures calls == old(calls) + if chartActive then OverlayCreates(table, KeyOrder) else []
    {
      var keys := SupportIndicators();
      if !chartActive {
        return;
      }
      TableKeys(table);
      AddOverlaysFor(keys);
    }

    /** The outer `forEach` of `addAllOverlayIndicators`, over the given keys. */
    method AddOverlaysFor(keys: seq<string>)
      requires forall k :: k in keys ==> k in table
      modifies this`calls
      ensures calls == old(calls) + OverlayCreates(table, keys)
    {
      var j := 0;
      while j < |keys|
        invariant 0 <= j <= |keys|
        invariant calls == old(calls) + OverlayCreates(table, keys[..j])
      {
        OverlayCreatesStep(table, keys, j);
        AddListOverlays(keys[j]);
        j := j + 1;
      }
      assert keys[..j] == keys;
    }

    /** The inner `forEach` of `addAllOverlayIndicators`, over one key's list. */
    method AddListOverlays(k: string)
      requires k in table
      modifies this`calls
      ensures calls == old(calls) + ListCreates(k, table[k], |table[k]|)
    {
      var l := table[k];
      var i := 0;
      while i < |l|
        invariant 0 <= i <= |l|
        invariant calls == old(calls) + ListCreates(k, l, i)
      {
        if l[i].config.isOverlay && !Present(l[i].entityId) {
          AddIndicator((k, i));
        }
        i := i + 1;
      }
    }
  }
}
