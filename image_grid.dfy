/** The picture input of `src/components/wizard/inputs/ImageGrid.tsx`: a list of values
    from which each picture is toggled in or out. */
module ImageGrid {

  import opened WizardTypes
  import opened Selection
  import CardSelector

  /** `isSelected(optionValue)`: the list holds the value's string form. */
  predicate IsSelected(value: seq<string>, optionValue: OptionValue) {
    OptionText(optionValue) in value
  }

  /** `handleToggle(optionValue)`: the list passed to `onChange`. */
  function HandleToggle(value: seq<string>, optionValue: OptionValue): seq<string> {
    Toggle(value, OptionText(optionValue))
  }

  // ---------------------------------------------------------------------------------
  // Properties

  /** A toggle flips the picture's selection and no other's. */
  lemma ToggleFlips(value: seq<string>, o: OptionValue, other: OptionValue)
    requires OptionText(other) != OptionText(o)
    ensures IsSelected(HandleToggle(value, o), o) <==> !IsSelected(value, o)
    ensures IsSelected(HandleToggle(value, o), other) <==> IsSelected(value, other)
  {
    ToggleMembership(value, OptionText(o));
  }

  /** A present value leaves with every occurrence; an absent one joins at the end. */
  lemma ToggleShape(value: seq<string>, o: OptionValue)
    ensures IsSelected(value, o) ==> OptionText(o) !in HandleToggle(value, o)
    ensures !IsSelected(value, o) ==> HandleToggle(value, o) == value + [OptionText(o)]
  {
  }

  /** The other entries keep their order, and toggling an absent picture twice restores
      the list. */
  lemma ToggleOrder(value: seq<string>, o: OptionValue)
    ensures Without(HandleToggle(value, o), OptionText(o)) == Without(value, OptionText(o))
    ensures !IsSelected(value, o) ==> HandleToggle(HandleToggle(value, o), o) == value
  {
    ToggleKeepsOthers(value, OptionText(o));
    if !IsSelected(value, o) {
      ToggleTwice(value, OptionText(o));
    }
  }

  /** The grid and the cards in multi-select mode agree on a list value. */
  lemma AgreesWithCards(value: seq<string>, o: OptionValue)
    ensures CardSelector.HandleSelect(CardSelector.Many(value), true, o) == CardSelector.Many(HandleToggle(value, o))
    ensures CardSelector.IsSelected(CardSelector.Many(value), true, o) == IsSelected(value, o)
  {
  }
}
