/**
 * Two configuration rules the picker applies to its props before handing
 * them to its sub-components: how the layout direction is resolved, and how
 * the user's theme options are combined with the built-in ones.
 */
module Config {
  import opened Js

  /** The built-in theme options. */
  const DefaultOptions: Obj := map[
    "backgroundColor" := Str("#fff"),
    "textHeaderColor" := Str("#212c35"),
    "textDefaultColor" := Str("#2d4150"),
    "selectedTextColor" := Str("#fff"),
    "mainColor" := Str("#61dafb"),
    "textSecondaryColor" := Str("#7a92a5"),
    "borderColor" := Str("rgba(122, 146, 165, 0.1)"),
    "defaultFont" := Str("System"),
    "headerFont" := Str("System"),
    "textFontSize" := Num(15),
    "textHeaderFontSize" := Num(17),
    "headerAnimationDistance" := Num(100),
    "daysAnimationDistance" := Num(200)
  ]

  /**
   * `reverse === 'unset' ? !isGregorian : reverse`: the sentinel derives the
   * direction from the calendar system, any other value is kept as given.
   */
  function ResolveReverse(reverse: Value, isGregorian: Value): (r: Value)
    ensures reverse == Str("unset") ==> r.Bool? && (r.b <==> !Truthy(isGregorian))
    ensures reverse != Str("unset") ==> r == reverse
  {
    if reverse == Str("unset") then Not(isGregorian) else reverse
  }

  /**
   * For the values the prop is declared to take (`true`, `false`, `'unset'`)
   * and a boolean calendar flag, the resolved direction is a boolean: the
   * given one, or right-to-left exactly for the non-Gregorian calendar.
   */
  lemma ResolveReverseDeclared(reverse: Value, isGregorian: bool)
    requires reverse == Bool(true) || reverse == Bool(false) || reverse == Str("unset")
    ensures var r := ResolveReverse(reverse, Bool(isGregorian));
            && r.Bool?
            && (reverse == Str("unset") ==> r.b == !isGregorian)
            && (reverse.Bool? ==> r.b == reverse.b)
  {
  }

  /** `{...options, ...userOptions}`. */
  function MergeOptions(user: Obj): (r: Obj)
    ensures Merged(DefaultOptions, user, r)
  {
    Spread(DefaultOptions, user)
  }

  /** Without user options the theme is exactly the built-in one. */
  lemma MergeNoOptions()
    ensures MergeOptions(map[]) == DefaultOptions
  {
  }

  /** Feeding a merged theme back in as user options changes nothing. */
  lemma MergeOptionsStable(user: Obj)
    ensures MergeOptions(MergeOptions(user)) == MergeOptions(user)
  {
  }

  /** A user option only overrides its own key; every other default survives. */
  lemma MergeOverridesOneKey(key: string, v: Value)
    ensures var r := MergeOptions(map[key := v]);
            && r[key] == v
            && forall k :: k in DefaultOptions && k != key ==> r[k] == DefaultOptions[k]
  {
  }
}
