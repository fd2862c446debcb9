/** The list operations the multi-select inputs share: `value.filter(v => v !== x)` and
    the toggle that removes every occurrence of a present value or appends an absent one. */
module Selection {

  /** `list.filter(v => v !== x)` */
  function Without(list: seq<string>, x: string): (r: seq<string>)
    ensures forall y :: y in r <==> y in list && y != x
    ensures |r| <= |list|
  {
    if |list| == 0 then []
    else if list[0] == x then Without(list[1..], x)
    else [list[0]] + Without(list[1..], x)
  }

  /** `list.includes(x) ? list.filter(v => v !== x) : [...list, x]` */
  function Toggle(list: seq<string>, x: string): seq<string> {
    if x in list then Without(list, x) else list + [x]
  }

  // ---------------------------------------------------------------------------------
  // Properties

  /** Filtering out an absent value keeps the list as it is. */
  lemma {:induction false} WithoutAbsent(list: seq<string>, x: string)
    requires x !in list
    ensures Without(list, x) == list
  {
    if |list| > 0 {
      assert list[0] != x && x !in list[1..];
      WithoutAbsent(list[1..], x);
      assert list == [list[0]] + list[1..];
    }
  }

  /** Filtering distributes over concatenation. */
  lemma {:induction false} WithoutAppend(a: seq<string>, b: seq<string>, x: string)
    ensures Without(a + b, x) == Without(a, x) + Without(b, x)
  {
    if |a| == 0 {
      assert a + b == b;
    } else {
      assert (a + b)[0] == a[0] && (a + b)[1..] == a[1..] + b;
      WithoutAppend(a[1..], b, x);
    }
  }

  /** Two filters commute, and filtering twice by the same value is filtering once. */
  lemma {:induction false} WithoutCommutes(list: seq<string>, x: string, y: string)
    ensures Without(Without(list, x), y) == Without(Without(list, y), x)
    ensures Without(Without(list, x), x) == Without(list, x)
  {
    if |list| > 0 {
      WithoutCommutes(list[1..], x, y);
    }
  }

  /** The toggled value's membership flips; every other value keeps its membership. */
  lemma ToggleMembership(list: seq<string>, x: string)
    ensures x in Toggle(list, x) <==> x !in list
    ensures forall y :: y != x ==> (y in Toggle(list, x) <==> y in list)
  {
  }

  /** Apart from the toggled value the list is unchanged, order included: with that value
      filtered out, before and after agree. */
  lemma ToggleKeepsOthers(list: seq<string>, x: string)
    ensures Without(Toggle(list, x), x) == Without(list, x)
  {
    if x in list {
      WithoutCommutes(list, x, x);
    } else {
      WithoutAppend(list, [x], x);
      assert Without([x], x) == [];
    }
  }

  /** Toggling an absent value twice restores the list. */
  lemma ToggleTwice(list: seq<string>, x: string)
    requires x !in list
    ensures Toggle(Toggle(list, x), x) == list
  {
    assert x in list + [x];
    WithoutAppend(list, [x], x);
    WithoutAbsent(list, x);
    assert Without([x], x) == [];
  }

  /** Toggling a present value twice leaves it once, at the end. */
  lemma ToggleTwicePresent(list: seq<string>, x: string)
    requires x in list
    ensures Toggle(Toggle(list, x), x) == Without(list, x) + [x]
  {
  }
}
