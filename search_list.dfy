/** The searchable multi-select of `src/components/wizard/inputs/SearchList.tsx`: the
    chosen values show as badges, a pick toggles a value and closes the list, a badge's
    button removes its value. */
module SearchList {

  import opened Wrappers
  import opened WizardTypes
  import opened Selection

  /** `options.find(opt => opt.value.toString() === optionValue)` */
  function SelectedOption(options: seq<WizardOption>, optionValue: string): (r: Option<WizardOption>)
    ensures r.None? <==> forall i :: 0 <= i < |options| ==> OptionText(options[i].value) != optionValue
    ensures r.Some? ==>
      exists i :: 0 <= i < |options| && options[i] == r.value
        && OptionText(options[i].value) == optionValue
        && forall j :: 0 <= j < i ==> OptionText(options[j].value) != optionValue
  {
    if |options| == 0 then None
    else if OptionText(options[0].value) == optionValue then Some(options[0])
    else
      var r := SelectedOption(options[1..], optionValue);
      assert forall i :: 1 <= i < |options| ==> options[i] == options[1..][i - 1];
      r
  }

  /** A badge's text: the option's label, to be translated, or the raw value when no
      option carries it. */
  datatype BadgeText = Translated(labelKey: string) | Raw(s: string)

  function Badge(options: seq<WizardOption>, val: string): BadgeText {
    match SelectedOption(options, val)
    case Some(o) => Translated(o.labelKey)
    case None => Raw(val)
  }

  class Combobox {

    const options: seq<WizardOption>
    /** Whether the option list is shown. */
    var open: bool

    constructor (options: seq<WizardOption>)
      ensures this.options == options && !open
    {
      this.options := options;
      open := false;
    }

    /** Focus on the search field opens the list. */
    method Focus()
      modifies this
      ensures open
    {
      open := true;
    }

    /** Leaving the field closes the list once the 200 ms timer fires. */
    method BlurTimerFires()
      modifies this
      ensures !open
    {
      open := false;
    }

    /** `handleSelect(currentValue)`: the list passed to `onChange`; the list closes. */
    method HandleSelect(value: seq<string>, currentValue: string) returns (emitted: seq<string>)
      modifies this
      ensures emitted == Toggle(value, currentValue)
      ensures !open
    {
      if currentValue in value {
        emitted := Without(value, currentValue);
      } else {
        emitted := value + [currentValue];
      }
      open := false;
    }

    /** `handleRemove(valueToRemove)`: every occurrence goes; the list stays as it is. */
    method HandleRemove(value: seq<string>, valueToRemove: string) returns (emitted: seq<string>)
      ensures valueToRemove !in emitted
      ensures forall y :: y != valueToRemove ==> (y in emitted <==> y in value)
      ensures valueToRemove !in value ==> emitted == value
      ensures Without(emitted, valueToRemove) == Without(value, valueToRemove)
    {
      emitted := Without(value, valueToRemove);
      WithoutCommutes(value, valueToRemove, valueToRemove);
      if valueToRemove !in value {
        WithoutAbsent(value, valueToRemove);
      }
    }
  }

  // ---------------------------------------------------------------------------------
  // Properties

  /** A pick flips the picked value's membership and no other's, keeping the others'
      order. */
  lemma SelectFlips(value: seq<string>, x: string)
    ensures x in Toggle(value, x) <==> x !in value
    ensures forall y :: y != x ==> (y in Toggle(value, x) <==> y in value)
    ensures Without(Toggle(value, x), x) == Without(value, x)
  {
    ToggleMembership(value, x);
    ToggleKeepsOthers(value, x);
  }

  /** A value some option carries shows that first option's label; any other value
      shows itself. */
  lemma BadgeFallsBack(options: seq<WizardOption>, val: string, k: int)
    requires 0 <= k < |options| && OptionText(options[k].value) == val
    requires forall j :: 0 <= j < k ==> OptionText(options[j].value) != val
    ensures Badge(options, val) == Translated(options[k].labelKey)
  {
    var r := SelectedOption(options, val);
    var i :| 0 <= i < |options| && options[i] == r.value && OptionText(options[i].value) == val
      && forall j :: 0 <= j < i ==> OptionText(options[j].value) != val;
    assert i == k;
  }

  lemma BadgeRaw(options: seq<WizardOption>, val: string)
    requires forall i :: 0 <= i < |options| ==> OptionText(options[i].value) != val
    ensures Badge(options, val) == Raw(val)
  {
  }
}
