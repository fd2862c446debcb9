/** The card input of `src/components/wizard/inputs/CardSelector.tsx`: one value in
    single-select mode, a list toggled card by card in multi-select mode, and the icon
    names it can draw. */
module CardSelector {

  import opened Wrappers
  import opened WizardTypes
  import opened Selection

  /** The input's `value` and what it emits: a string or a list of strings. */
  datatype Current = One(s: string) | Many(items: seq<string>)

  /** `isSelected(optionValue)`: membership in multi-select mode with a list value, and
      otherwise equality with the string form (a list never equals a string). */
  predicate IsSelected(value: Current, multiSelect: bool, optionValue: OptionValue) {
    if multiSelect && value.Many? then OptionText(optionValue) in value.items
    else value == One(OptionText(optionValue))
  }

  /** The list a multi-select toggle starts from: a string value counts as `[]`. */
  function CurrentList(value: Current): seq<string> {
    match value
    case Many(items) => items
    case One(_) => []
  }

  /** `handleSelect(optionValue)`: what is passed to `onChange`. */
  function HandleSelect(value: Current, multiSelect: bool, optionValue: OptionValue): Current {
    if multiSelect then Many(Toggle(CurrentList(value), OptionText(optionValue)))
    else One(OptionText(optionValue))
  }

  /** The icon names the lookup table of `getLucideIcon` knows. */
  const LucideIcons: seq<string> := [
    "Apple", "Utensils", "ChefHat", "Activity", "Heart", "Scale", "User", "Calendar", "Clock",
    "Target", "Zap", "Moon", "Sun", "Leaf", "Shield", "Check", "X", "Plus", "Minus", "Star",
    "Flame", "Droplets", "Wheat", "Fish", "Beef", "Milk", "Egg", "Nut", "Search"]

  /** The properties every object literal inherits from `Object.prototype`; looking one
      of them up in the icon table finds a truthy value that is no icon. */
  const InheritedKeys: seq<string> := [
    "constructor", "hasOwnProperty", "isPrototypeOf", "propertyIsEnumerable", "toLocaleString",
    "toString", "valueOf", "__proto__", "__defineGetter__", "__defineSetter__",
    "__lookupGetter__", "__lookupSetter__"]

  /** What `icons[iconName] || null` finds: the table's icon, or an inherited property. */
  datatype Found = Icon(name: string) | Inherited(name: string)

  /** `getLucideIcon(iconName)`: nothing for a missing or empty name; the icon of a name in
      the table; for a name the object inherits, the inherited value, which the card then
      tries to render; nothing otherwise. */
  function LucideIcon(iconName: Option<string>): (r: Option<Found>)
    ensures r.Some? <==> iconName.Some? && (iconName.value in LucideIcons || iconName.value in InheritedKeys)
    ensures r.Some? && r.value.Icon? <==> iconName.Some? && iconName.value in LucideIcons
    ensures r.Some? ==> r.value.name == iconName.value
  {
    if iconName.None? || iconName.value == "" then
      assert "" !in LucideIcons && "" !in InheritedKeys by {
        NoEmptyKey();
      }
      None
    else if iconName.value in LucideIcons then Some(Icon(iconName.value))
    else if iconName.value in InheritedKeys then Some(Inherited(iconName.value))
    else None
  }

  lemma NoEmptyKey()
    ensures "" !in LucideIcons && "" !in InheritedKeys
  {
    assert forall i :: 0 <= i < |LucideIcons| ==> |LucideIcons[i]| > 0;
    assert forall i :: 0 <= i < |InheritedKeys| ==> |InheritedKeys[i]| > 0;
  }

  // ---------------------------------------------------------------------------------
  // Properties

  /** In single-select mode the chosen card is the only selected one. */
  lemma SingleSelects(value: Current, o: OptionValue, other: OptionValue)
    ensures HandleSelect(value, false, o) == One(OptionText(o))
    ensures IsSelected(HandleSelect(value, false, o), false, o)
    ensures IsSelected(HandleSelect(value, false, o), false, other) <==> OptionText(other) == OptionText(o)
  {
  }

  /** In multi-select mode a click flips the card's selection and leaves every other
      card's as it was, on a list value. */
  lemma MultiFlips(items: seq<string>, o: OptionValue, other: OptionValue)
    requires OptionText(other) != OptionText(o)
    ensures IsSelected(HandleSelect(Many(items), true, o), true, o) <==> !IsSelected(Many(items), true, o)
    ensures IsSelected(HandleSelect(Many(items), true, o), true, other) <==> IsSelected(Many(items), true, other)
  {
    ToggleMembership(items, OptionText(o));
  }

  /** A string value is dropped by a multi-select click: the result holds the clicked
      value alone. */
  lemma MultiFromString(s: string, o: OptionValue)
    ensures HandleSelect(One(s), true, o) == Many([OptionText(o)])
  {
  }

  /** A multi-select click keeps the other values in their order. */
  lemma MultiKeepsOrder(items: seq<string>, o: OptionValue)
    ensures Without(HandleSelect(Many(items), true, o).items, OptionText(o)) == Without(items, OptionText(o))
  {
    ToggleKeepsOthers(items, OptionText(o));
  }

  /** The wizard's own option icons are mostly outside the table and draw no icon:
      `Apron` (who cooks) finds nothing, `User` (gender) does. */
  lemma WizardIconsMissing()
    ensures LucideIcon(Some("Apron")) == None
    ensures LucideIcon(Some("User")) == Some(Icon("User"))
    ensures LucideIcon(None) == None && LucideIcon(Some("")) == None
  {
    assert LucideIcons[6] == "User";
    assert forall i :: 0 <= i < |LucideIcons| ==> LucideIcons[i] != "Apron";
    assert forall i :: 0 <= i < |InheritedKeys| ==> InheritedKeys[i] != "Apron" by {
      assert forall i :: 0 <= i < |InheritedKeys| ==> InheritedKeys[i][0] != 'A';
    }
  }

  /** An inherited name such as `constructor` is no icon, yet the lookup finds a value. */
  lemma InheritedNameFound()
    ensures LucideIcon(Some("constructor")) == Some(Inherited("constructor"))
  {
    assert InheritedKeys[0] == "constructor";
    assert forall i :: 0 <= i < |LucideIcons| ==> LucideIcons[i][0] != 'c';
  }
}
