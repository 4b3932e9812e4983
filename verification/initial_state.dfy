/**
 * The state the picker mounts with, and the two panel flags read as the
 * four-state panel machine {closed, month open, time open, both open}.
 *
 * The picker's date helpers (today's date, parsing a date string, formatting
 * a date) live in a utility class that is not part of this model; they enter
 * as parameters: `today` is the value `getToday()` returns, and `getDate`,
 * `getFormated` are arbitrary functions over an abstract date type `D`.
 */
module InitialState {
  import opened Js
  import opened Reducer

  /** The keys of the state record passed to the reducer hook. */
  const StateKeys: set<string> := {"activeDate", "selectedDate", MonthFlag, TimeFlag}

  /**
   * The initial state: `activeDate` is `current || getToday()`, `selectedDate`
   * is `selected ? getFormated(getDate(selected)) : ''`, and each panel flag
   * is a strict comparison of `mode` with that panel's mode name.
   */
  function Initial<D>(current: Value, selected: Value, mode: Value,
                      today: Value, getDate: Value -> D, getFormated: D -> Value): (r: Obj)
    ensures r.Keys == StateKeys
    ensures r[MonthFlag].Bool? && (r[MonthFlag].b <==> mode == Str("monthYear"))
    ensures r[TimeFlag].Bool? && (r[TimeFlag].b <==> mode == Str("time"))
    ensures Truthy(current) ==> r["activeDate"] == current
    ensures !Truthy(current) ==> r["activeDate"] == today
    ensures Truthy(selected) ==> r["selectedDate"] == getFormated(getDate(selected))
    ensures !Truthy(selected) ==> r["selectedDate"] == Str("")
  {
    map[
      "activeDate" := if Truthy(current) then current else today,
      "selectedDate" := if Truthy(selected) then getFormated(getDate(selected)) else Str(""),
      MonthFlag := Bool(mode == Str("monthYear")),
      TimeFlag := Bool(mode == Str("time"))
    ]
  }

  /** Which sub-panels a state shows, reading each flag by truthiness. */
  datatype Panels = ClosedBoth | MonthOpen | TimeOpen | BothOpen

  function PanelsOf(state: Obj): (p: Panels)
    ensures p == BothOpen <==> Truthy(Get(state, MonthFlag)) && Truthy(Get(state, TimeFlag))
    ensures p == ClosedBoth <==> !Truthy(Get(state, MonthFlag)) && !Truthy(Get(state, TimeFlag))
    ensures p == MonthOpen <==> Truthy(Get(state, MonthFlag)) && !Truthy(Get(state, TimeFlag))
    ensures p == TimeOpen <==> !Truthy(Get(state, MonthFlag)) && Truthy(Get(state, TimeFlag))
  {
    match (Truthy(Get(state, MonthFlag)), Truthy(Get(state, TimeFlag)))
    case (false, false) => ClosedBoth
    case (true, false) => MonthOpen
    case (false, true) => TimeOpen
    case (true, true) => BothOpen
  }

  predicate MonthShown(p: Panels) {
    p == MonthOpen || p == BothOpen
  }

  predicate TimeShown(p: Panels) {
    p == TimeOpen || p == BothOpen
  }

  /**
   * The panel machine's transition table: a toggle flips its own panel and
   * leaves the other as it is, so both panels may end up open.
   */
  function PanelStep(p: Panels, k: Kind): (r: Panels)
    requires IsToggle(k)
    ensures MonthShown(r) == (MonthShown(p) != (k == ToggleMonth))
    ensures TimeShown(r) == (TimeShown(p) != (k == ToggleTime))
  {
    match (p, k)
    case (ClosedBoth, ToggleMonth) => MonthOpen
    case (MonthOpen, ToggleMonth) => ClosedBoth
    case (TimeOpen, ToggleMonth) => BothOpen
    case (BothOpen, ToggleMonth) => TimeOpen
    case (ClosedBoth, _) => TimeOpen
    case (TimeOpen, _) => ClosedBoth
    case (MonthOpen, _) => BothOpen
    case (BothOpen, _) => MonthOpen
  }

  /** The panel table undoes itself: the same toggle twice gives back the panels. */
  lemma PanelStepInvolution(p: Panels, k: Kind)
    requires IsToggle(k)
    ensures PanelStep(PanelStep(p, k), k) == p
  {
  }

  /** The reducer's toggles follow the panel table, from any state. */
  lemma ReduceFollowsPanelStep(state: Obj, action: Obj)
    requires IsToggle(KindOf(action))
    ensures PanelsOf(Reduce(state, action).value) == PanelStep(PanelsOf(state), KindOf(action))
  {
  }

  /** A `set` that carries neither flag leaves the panels as they were. */
  lemma SetWithoutFlagsKeepsPanels(state: Obj, action: Obj)
    requires KindOf(action) == Set && MonthFlag !in action && TimeFlag !in action
    ensures PanelsOf(Reduce(state, action).value) == PanelsOf(state)
  {
  }

  /**
   * The initial panels depend only on the mode: `monthYear` opens the month
   * panel, `time` the time panel, anything else (`datepicker`, `calendar`)
   * neither; both are never open at mount.
   */
  lemma InitialPanels<D>(current: Value, selected: Value, mode: Value,
                         today: Value, getDate: Value -> D, getFormated: D -> Value)
    ensures var p := PanelsOf(Initial(current, selected, mode, today, getDate, getFormated));
            && (p == MonthOpen <==> mode == Str("monthYear"))
            && (p == TimeOpen <==> mode == Str("time"))
            && (p == ClosedBoth <==> mode != Str("monthYear") && mode != Str("time"))
            && p != BothOpen
  {
  }

  /**
   * With the default props (`current = ''`, `selected = ''`,
   * `mode = 'datepicker'`) the picker shows today, selects nothing and
   * opens no panel.
   */
  lemma DefaultPropsInitial<D>(today: Value, getDate: Value -> D, getFormated: D -> Value)
    ensures var s := Initial(Str(""), Str(""), Str("datepicker"), today, getDate, getFormated);
            && s["activeDate"] == today
            && s["selectedDate"] == Str("")
            && PanelsOf(s) == ClosedBoth
  {
  }

  /** Mounting in `monthYear` mode and then toggling the time panel opens both. */
  lemma MonthYearThenToggleTime<D>(current: Value, selected: Value,
                                   today: Value, getDate: Value -> D, getFormated: D -> Value)
    ensures var s := Initial(current, selected, Str("monthYear"), today, getDate, getFormated);
            var r := Reduce(s, map["type" := Str("toggleTime")]);
            r.Success? && PanelsOf(r.value) == BothOpen
  {
  }

  /**
   * From the initial state, toggles alone never change the dates or the set
   * of keys, and each flag is the boolean of its mode test flipped once per
   * toggle of its own kind.
   */
  lemma {:induction false} TogglesFromInitial<D>(current: Value, selected: Value, mode: Value,
                                                 today: Value, getDate: Value -> D, getFormated: D -> Value,
                                                 actions: seq<Obj>)
    requires forall i :: 0 <= i < |actions| ==> IsToggle(KindOf(actions[i]))
    ensures var s := Initial(current, selected, mode, today, getDate, getFormated);
            var r := Run(s, actions);
            && r.Success?
            && Get(r.value, "activeDate") == s["activeDate"]
            && Get(r.value, "selectedDate") == s["selectedDate"]
            && r.value.Keys == StateKeys
            && Get(r.value, MonthFlag) == Bool((mode == Str("monthYear")) != (Count(actions, ToggleMonth) % 2 == 1))
            && Get(r.value, TimeFlag) == Bool((mode == Str("time")) != (Count(actions, ToggleTime) % 2 == 1))
  {
    var s := Initial(current, selected, mode, today, getDate, getFormated);
    RunToggles(s, actions);
    RunTogglesKeepsShape(s, actions);
  }
}
