/**
 * The picker's state-transition function. The state is the plain object
 * `{activeDate, selectedDate, monthOpen, timeOpen}` (plus whatever a `set`
 * action has merged in), and an action is any object whose `type` property
 * selects the branch.
 */
module Reducer {
  import opened Js
  import opened Wrappers

  const MonthFlag: string := "monthOpen"
  const TimeFlag: string := "timeOpen"

  /** The branch of the `switch (action.type)` an action takes. */
  datatype Kind = Set | ToggleMonth | ToggleTime | Unexpected(tag: Value)

  /** The error raised by the `default` branch ("Unexpected action"). */
  datatype Error = UnexpectedAction

  /** `switch` compares with `===`, so only these exact strings select a branch. */
  function KindOf(action: Obj): (k: Kind)
    ensures k == Set <==> Get(action, "type") == Str("set")
    ensures k == ToggleMonth <==> Get(action, "type") == Str("toggleMonth")
    ensures k == ToggleTime <==> Get(action, "type") == Str("toggleTime")
    ensures k.Unexpected? ==> k.tag == Get(action, "type")
  {
    var tag := Get(action, "type");
    if tag == Str("set") then Set
    else if tag == Str("toggleMonth") then ToggleMonth
    else if tag == Str("toggleTime") then ToggleTime
    else Unexpected(tag)
  }

  predicate IsToggle(k: Kind) {
    k == ToggleMonth || k == ToggleTime
  }

  /** The state property a toggle action flips. */
  function FlagOf(k: Kind): string
    requires IsToggle(k)
  {
    if k == ToggleMonth then MonthFlag else TimeFlag
  }

  /**
   * `after` is `before` with property `flag` replaced by `!before.flag`
   * and every other property, present or absent, left as it was.
   */
  ghost predicate Flipped(before: Obj, after: Obj, flag: string) {
    && after.Keys == before.Keys + {flag}
    && after[flag] == Not(Get(before, flag))
    && forall k :: k in before && k != flag ==> after[k] == before[k]
  }

  /**
   * The reducer: one transition of the picker state, or the error for an
   * unknown action. For `set`, the action's properties, `type` included,
   * override the state's.
   */
  function Reduce(state: Obj, action: Obj): (r: Result<Obj, Error>)
    ensures r.Failure? <==> KindOf(action).Unexpected?
    ensures r.Failure? ==> r.error == UnexpectedAction
    ensures KindOf(action) == Set ==> r.Success? && Merged(state, action, r.value) && r.value["type"] == Str("set")
    ensures IsToggle(KindOf(action)) ==> r.Success? && Flipped(state, r.value, FlagOf(KindOf(action)))
  {
    match KindOf(action)
    case Set => Success(Spread(state, action))
    case ToggleMonth => Success(state[MonthFlag := Not(Get(state, MonthFlag))])
    case ToggleTime => Success(state[TimeFlag := Not(Get(state, TimeFlag))])
    case Unexpected(_) => Failure(UnexpectedAction)
  }

  /** A toggle reads nothing from its action but the `type`: any two toggles of one kind agree. */
  lemma ToggleIgnoresPayload(state: Obj, a: Obj, b: Obj)
    requires IsToggle(KindOf(a)) && KindOf(a) == KindOf(b)
    ensures Reduce(state, a) == Reduce(state, b)
  {
  }

  /** A toggle changes only its own flag: every other property reads as before. */
  lemma ToggleTouchesOnlyItsFlag(state: Obj, action: Obj, key: string)
    requires IsToggle(KindOf(action)) && key != FlagOf(KindOf(action))
    ensures Get(Reduce(state, action).value, key) == Get(state, key)
  {
  }

  /**
   * Toggling twice restores the flag's truth value, now stored as a boolean;
   * every other property is untouched.
   */
  lemma ToggleTwice(state: Obj, action: Obj)
    requires IsToggle(KindOf(action))
    ensures var flag := FlagOf(KindOf(action));
            Reduce(Reduce(state, action).value, action) == Success(state[flag := Bool(Truthy(Get(state, flag)))])
  {
    var flag := FlagOf(KindOf(action));
    var once := Reduce(state, action).value;
    NotNot(Get(state, flag));
    assert once[flag := Not(Get(once, flag))] == state[flag := Bool(Truthy(Get(state, flag)))];
  }

  /** When the flag already holds a boolean, a toggle is an involution. */
  lemma ToggleInvolution(state: Obj, action: Obj)
    requires IsToggle(KindOf(action))
    requires Get(state, FlagOf(KindOf(action))).Bool?
    ensures Reduce(Reduce(state, action).value, action) == Success(state)
  {
    var flag := FlagOf(KindOf(action));
    ToggleTwice(state, action);
    assert state[flag := Bool(Truthy(Get(state, flag)))] == state;
  }

  /** Toggling the month panel and toggling the time panel commute. */
  lemma TogglesCommute(state: Obj, month: Obj, time: Obj)
    requires KindOf(month) == ToggleMonth && KindOf(time) == ToggleTime
    ensures Reduce(Reduce(state, month).value, time) == Reduce(Reduce(state, time).value, month)
  {
    var m := Not(Get(state, MonthFlag));
    var t := Not(Get(state, TimeFlag));
    assert state[MonthFlag := m][TimeFlag := t] == state[TimeFlag := t][MonthFlag := m];
  }

  /** Dispatching the same `set` action twice has the effect of dispatching it once. */
  lemma SetIdempotent(state: Obj, action: Obj)
    requires KindOf(action) == Set
    ensures Reduce(Reduce(state, action).value, action) == Reduce(state, action)
  {
    SpreadIdempotent(state, action);
  }

  /** Two successive `set` actions equal one `set` carrying both, the later one winning. */
  lemma SetsCompose(state: Obj, a: Obj, b: Obj)
    requires KindOf(a) == Set && KindOf(b) == Set
    ensures KindOf(Spread(a, b)) == Set
    ensures Reduce(Reduce(state, a).value, b) == Reduce(state, Spread(a, b))
  {
    SpreadAssociative(state, a, b);
  }

  /**
   * The outcome of dispatching `actions` in order. The first unexpected
   * action raises and nothing after it is applied.
   */
  function Run(state: Obj, actions: seq<Obj>): Result<Obj, Error>
    decreases |actions|
  {
    if actions == [] then Success(state)
    else
      match Reduce(state, actions[0])
      case Failure(e) => Failure(e)
      case Success(next) => Run(next, actions[1..])
  }

  /** A sequence of dispatches fails exactly when one of its actions has an unknown type. */
  lemma {:induction false} RunFailsIffUnexpected(state: Obj, actions: seq<Obj>)
    ensures Run(state, actions).Failure? <==> exists i :: 0 <= i < |actions| && KindOf(actions[i]).Unexpected?
    decreases |actions|
  {
    if actions != [] {
      match Reduce(state, actions[0])
      case Failure(_) =>
      case Success(next) =>
        RunFailsIffUnexpected(next, actions[1..]);
        if exists i :: 0 <= i < |actions[1..]| && KindOf(actions[1..][i]).Unexpected? {
          var i :| 0 <= i < |actions[1..]| && KindOf(actions[1..][i]).Unexpected?;
          assert KindOf(actions[i + 1]).Unexpected?;
        }
        if exists i :: 0 <= i < |actions| && KindOf(actions[i]).Unexpected? {
          var i :| 0 <= i < |actions| && KindOf(actions[i]).Unexpected?;
          assert i != 0;
          assert KindOf(actions[1..][i - 1]).Unexpected?;
        }
    }
  }

  /** How many of `actions` are toggles of kind `k`. */
  function Count(actions: seq<Obj>, k: Kind): nat
  {
    if actions == [] then 0
    else (if KindOf(actions[0]) == k then 1 else 0) + Count(actions[1..], k)
  }

  /** One toggle flips the truth value of its own flag and keeps the other flag's. */
  lemma ToggleFlagTruth(state: Obj, action: Obj)
    requires IsToggle(KindOf(action))
    ensures var next := Reduce(state, action).value;
            && Truthy(Get(next, MonthFlag)) == (Truthy(Get(state, MonthFlag)) != (KindOf(action) == ToggleMonth))
            && Truthy(Get(next, TimeFlag)) == (Truthy(Get(state, TimeFlag)) != (KindOf(action) == ToggleTime))
  {
  }

  /**
   * Toggles from a state whose two flags hold booleans keep its set of keys
   * and keep both flags booleans.
   */
  lemma {:induction false} RunTogglesKeepsShape(state: Obj, actions: seq<Obj>)
    requires forall i :: 0 <= i < |actions| ==> IsToggle(KindOf(actions[i]))
    requires Get(state, MonthFlag).Bool? && Get(state, TimeFlag).Bool?
    ensures Run(state, actions).Success?
    ensures Run(state, actions).value.Keys == state.Keys
    ensures Get(Run(state, actions).value, MonthFlag).Bool?
    ensures Get(Run(state, actions).value, TimeFlag).Bool?
    decreases |actions|
  {
    RunToggles(state, actions);
    if actions != [] {
      var next := Reduce(state, actions[0]).value;
      var rest := actions[1..];
      assert forall i :: 0 <= i < |rest| ==> IsToggle(KindOf(rest[i])) by {
        forall i | 0 <= i < |rest| ensures IsToggle(KindOf(rest[i])) {
          assert rest[i] == actions[i + 1];
        }
      }
      RunTogglesKeepsShape(next, rest);
    }
  }

  /**
   * After any sequence of toggles, each flag's truth value is its initial one
   * flipped once per toggle of its own kind, and every other property reads
   * exactly as before.
   */
  lemma {:induction false} RunToggles(state: Obj, actions: seq<Obj>)
    requires forall i :: 0 <= i < |actions| ==> IsToggle(KindOf(actions[i]))
    ensures Run(state, actions).Success?
    ensures Truthy(Get(Run(state, actions).value, MonthFlag))
            == (Truthy(Get(state, MonthFlag)) != (Count(actions, ToggleMonth) % 2 == 1))
    ensures Truthy(Get(Run(state, actions).value, TimeFlag))
            == (Truthy(Get(state, TimeFlag)) != (Count(actions, ToggleTime) % 2 == 1))
    ensures forall key :: key != MonthFlag && key != TimeFlag ==>
              Get(Run(state, actions).value, key) == Get(state, key)
    decreases |actions|
  {
    if actions != [] {
      var next := Reduce(state, actions[0]).value;
      var rest := actions[1..];
      assert forall i :: 0 <= i < |rest| ==> IsToggle(KindOf(rest[i])) by {
        forall i | 0 <= i < |rest| ensures IsToggle(KindOf(rest[i])) {
          assert rest[i] == actions[i + 1];
        }
      }
      RunToggles(next, rest);
      assert Run(state, actions) == Run(next, rest);
      ToggleFlagTruth(state, actions[0]);
      forall key | key != MonthFlag && key != TimeFlag
        ensures Get(next, key) == Get(state, key)
      {
        ToggleTouchesOnlyItsFlag(state, actions[0], key);
      }
    }
  }
}
