/** The logic of src/lib/accessibility.tsx: the ARIA attribute builders, key dispatch,
    the roving-tabindex index arithmetic and the unique-id counter. */
module Accessibility {
  import opened Common
  import opened Text

  // ---------------------------------------------------------------------------
  // ARIA attribute builders
  // ---------------------------------------------------------------------------

  /** An attribute value: a string, or a boolean the caller passed through. */
  datatype AriaValue = AriaText(text: string) | AriaBool(flag: bool)

  type Attributes = map<string, AriaValue>

  /** `getButtonAriaProps`: the label always; `aria-expanded` and `aria-pressed` when
      given at all (also when false); the string options only when non-empty; and
      `aria-disabled` only when `disabled` is true. */
  function ButtonAriaProps(ariaLabel: string, expanded: Option<bool>, controls: Option<string>,
                           pressed: Option<bool>, disabled: Option<bool>, describedBy: Option<string>)
    : (r: Attributes)
    ensures "aria-label" in r && r["aria-label"] == AriaText(ariaLabel)
    ensures "aria-expanded" in r <==> expanded.Some?
    ensures expanded.Some? ==> r["aria-expanded"] == AriaBool(expanded.value)
    ensures "aria-controls" in r <==> StrTruthy(controls)
    ensures StrTruthy(controls) ==> r["aria-controls"] == AriaText(controls.value)
    ensures "aria-pressed" in r <==> pressed.Some?
    ensures pressed.Some? ==> r["aria-pressed"] == AriaBool(pressed.value)
    ensures "aria-disabled" in r <==> disabled == Some(true)
    ensures disabled == Some(true) ==> r["aria-disabled"] == AriaText("true")
    ensures "aria-describedby" in r <==> StrTruthy(describedBy)
    ensures StrTruthy(describedBy) ==> r["aria-describedby"] == AriaText(describedBy.value)
    ensures r.Keys <= {"aria-label", "aria-expanded", "aria-controls", "aria-pressed", "aria-disabled", "aria-describedby"}
  {
    var m0 := map["aria-label" := AriaText(ariaLabel)];
    var m1 := if expanded.Some? then m0["aria-expanded" := AriaBool(expanded.value)] else m0;
    var m2 := if StrTruthy(controls) then m1["aria-controls" := AriaText(controls.value)] else m1;
    var m3 := if pressed.Some? then m2["aria-pressed" := AriaBool(pressed.value)] else m2;
    var m4 := if disabled == Some(true) then m3["aria-disabled" := AriaText("true")] else m3;
    if StrTruthy(describedBy) then m4["aria-describedby" := AriaText(describedBy.value)] else m4
  }

  /** `getInputAriaProps`: `aria-errormessage` appears only for an invalid field that
      has a non-empty error id. */
  function InputAriaProps(ariaLabel: string, required: Option<bool>, invalid: Option<bool>, errorId: Option<string>,
                          describedBy: Option<string>, autocomplete: Option<string>)
    : (r: Attributes)
    ensures "aria-label" in r && r["aria-label"] == AriaText(ariaLabel)
    ensures "aria-required" in r <==> required == Some(true)
    ensures required == Some(true) ==> r["aria-required"] == AriaText("true")
    ensures "aria-invalid" in r <==> invalid == Some(true)
    ensures invalid == Some(true) ==> r["aria-invalid"] == AriaText("true")
    ensures "aria-errormessage" in r <==> StrTruthy(errorId) && invalid == Some(true)
    ensures "aria-errormessage" in r ==> r["aria-errormessage"] == AriaText(errorId.value)
    ensures "aria-describedby" in r <==> StrTruthy(describedBy)
    ensures StrTruthy(describedBy) ==> r["aria-describedby"] == AriaText(describedBy.value)
    ensures "autoComplete" in r <==> StrTruthy(autocomplete)
    ensures StrTruthy(autocomplete) ==> r["autoComplete"] == AriaText(autocomplete.value)
    ensures r.Keys <= {"aria-label", "aria-required", "aria-invalid", "aria-errormessage", "aria-describedby", "autoComplete"}
  {
    var m0 := map["aria-label" := AriaText(ariaLabel)];
    var m1 := if required == Some(true) then m0["aria-required" := AriaText("true")] else m0;
    var m2 := if invalid == Some(true) then m1["aria-invalid" := AriaText("true")] else m1;
    var m3 := if StrTruthy(errorId) && invalid == Some(true) then m2["aria-errormessage" := AriaText(errorId.value)] else m2;
    var m4 := if StrTruthy(describedBy) then m3["aria-describedby" := AriaText(describedBy.value)] else m3;
    if StrTruthy(autocomplete) then m4["autoComplete" := AriaText(autocomplete.value)] else m4
  }

  /** `getDialogAriaProps`: a modal dialog labelled by its title element. */
  function DialogAriaProps(titleId: string, descriptionId: Option<string>): (r: Attributes)
    ensures "role" in r && r["role"] == AriaText("dialog")
    ensures "aria-modal" in r && r["aria-modal"] == AriaText("true")
    ensures "aria-labelledby" in r && r["aria-labelledby"] == AriaText(titleId)
    ensures "aria-describedby" in r <==> StrTruthy(descriptionId)
    ensures StrTruthy(descriptionId) ==> r["aria-describedby"] == AriaText(descriptionId.value)
    ensures |r.Keys| == if StrTruthy(descriptionId) then 4 else 3
  {
    var m := map["role" := AriaText("dialog"), "aria-modal" := AriaText("true"), "aria-labelledby" := AriaText(titleId)];
    if StrTruthy(descriptionId) then m["aria-describedby" := AriaText(descriptionId.value)] else m
  }

  // ---------------------------------------------------------------------------
  // Keyboard handling
  // ---------------------------------------------------------------------------

  datatype Key = Enter | Escape | ArrowUp | ArrowDown | ArrowLeft | ArrowRight | Tab | Home | End | OtherKey

  datatype Handler = OnEnter | OnEscape | OnArrowUp | OnArrowDown | OnArrowLeft | OnArrowRight | OnTab

  /** The key each callback option is named after. */
  function HandledKey(h: Handler): Key
  {
    match h
    case OnEnter => Enter
    case OnEscape => Escape
    case OnArrowUp => ArrowUp
    case OnArrowDown => ArrowDown
    case OnArrowLeft => ArrowLeft
    case OnArrowRight => ArrowRight
    case OnTab => Tab
  }

  /** `useKeyboardNavigation`: which optional callback a key press calls, and whether
      the browser default is cancelled (only for the vertical arrows). */
  function KeyboardDispatch(key: Key): (r: (Option<Handler>, bool))
    ensures r.1 <==> key == ArrowUp || key == ArrowDown
    ensures r.0.None? <==> key == Home || key == End || key == OtherKey
    ensures r.0.Some? ==> HandledKey(r.0.value) == key
  {
    match key
    case Enter => (Some(OnEnter), false)
    case Escape => (Some(OnEscape), false)
    case ArrowUp => (Some(OnArrowUp), true)
    case ArrowDown => (Some(OnArrowDown), true)
    case ArrowLeft => (Some(OnArrowLeft), false)
    case ArrowRight => (Some(OnArrowRight), false)
    case Tab => (Some(OnTab), false)
    case _ => (None, false)
  }

  datatype Orientation = Horizontal | Vertical

  predicate IsNext(o: Orientation, key: Key)
  {
    (o == Vertical && key == ArrowDown) || (o == Horizontal && key == ArrowRight)
  }

  predicate IsPrev(o: Orientation, key: Key)
  {
    (o == Vertical && key == ArrowUp) || (o == Horizontal && key == ArrowLeft)
  }

  /** The index the roving-tabindex handler moves to, or `None` when the key is not
      one it handles. */
  function NextIndex(active: int, count: int, o: Orientation, loop: bool, key: Key): (r: Option<int>)
    ensures r.None? <==> !IsNext(o, key) && !IsPrev(o, key) && key != Home && key != End
    ensures key == Home ==> r == Some(0)
    ensures key == End ==> r == Some(count - 1)
    ensures IsNext(o, key) && active + 1 < count ==> r == Some(active + 1)
    ensures IsNext(o, key) && active + 1 >= count ==> r == Some(if loop then 0 else count - 1)
    ensures IsPrev(o, key) && active - 1 >= 0 ==> r == Some(active - 1)
    ensures IsPrev(o, key) && active - 1 < 0 ==> r == Some(if loop then count - 1 else 0)
  {
    if IsNext(o, key) then
      var n := active + 1;
      Some(if n >= count then (if loop then 0 else count - 1) else n)
    else if IsPrev(o, key) then
      var n := active - 1;
      Some(if n < 0 then (if loop then count - 1 else 0) else n)
    else if key == Home then Some(0)
    else if key == End then Some(count - 1)
    else None
  }

  /** With at least one item and an index in range, every handled key keeps it in range. */
  lemma NextIndexInRange(active: int, count: int, o: Orientation, loop: bool, key: Key)
    requires 0 <= active < count
    ensures NextIndex(active, count, o, loop, key).Some? ==> 0 <= NextIndex(active, count, o, loop, key).value < count
  {
  }

  /** Arrow keys of the other orientation do nothing. */
  lemma CrossAxisIgnored(active: int, count: int, loop: bool)
    ensures NextIndex(active, count, Vertical, loop, ArrowLeft).None?
    ensures NextIndex(active, count, Vertical, loop, ArrowRight).None?
    ensures NextIndex(active, count, Horizontal, loop, ArrowUp).None?
    ensures NextIndex(active, count, Horizontal, loop, ArrowDown).None?
  {
  }

  /** With looping, `count` presses of "next" come back to where they started. */
  function Presses(active: int, count: int, o: Orientation, k: nat): int
    decreases k
  {
    if k == 0 then active
    else
      var n := NextIndex(active, count, o, true, if o == Vertical then ArrowDown else ArrowRight);
      Presses(if n.Some? then n.value else active, count, o, k - 1)
  }

  lemma {:induction false} PressesAdvance(active: int, count: int, o: Orientation, k: nat)
    requires 0 <= active && active + k < count
    ensures Presses(active, count, o, k) == active + k
    decreases k
  {
    if k > 0 {
      PressesAdvance(active + 1, count, o, k - 1);
    }
  }

  lemma {:induction false} PressesSplit(active: int, count: int, o: Orientation, a: nat, b: nat)
    ensures Presses(active, count, o, a + b) == Presses(Presses(active, count, o, a), count, o, b)
    decreases a
  {
    if a > 0 {
      var n := NextIndex(active, count, o, true, if o == Vertical then ArrowDown else ArrowRight);
      PressesSplit(if n.Some? then n.value else active, count, o, a - 1, b);
    }
  }

  lemma LoopingCycle(active: int, count: int, o: Orientation)
    requires 0 <= active < count
    ensures Presses(active, count, o, count as nat) == active
  {
    var toEnd := count - 1 - active;
    PressesAdvance(active, count, o, toEnd);
    PressesSplit(active, count, o, toEnd, 1);
    assert Presses(active, count, o, toEnd + 1) == 0;
    PressesAdvance(0, count, o, active);
    PressesSplit(active, count, o, toEnd + 1, active);
  }

  /** `getItemProps(index).tabIndex`. */
  function TabIndex(index: int, active: int): (t: int)
    ensures t == 0 <==> index == active
    ensures t == 0 || t == -1
  {
    if index == active then 0 else -1
  }

  /** Exactly one item of the list is reachable by Tab. */
  lemma SingleTabStop(active: int, count: int)
    requires 0 <= active < count
    ensures (set i | 0 <= i < count && TabIndex(i, active) == 0) == {active}
  {
  }

  /** The state of one `useRovingTabindex` instance, with the element registered for each
      index and the element that has focus. */
  class RovingTabindex {
    var activeIndex: int
    const itemCount: int
    const orientation: Orientation
    const loop: bool
    /** `itemRefs.current`: the element (or null) the ref callback stored for each index. */
    var itemRefs: map<int, Option<nat>>
    var focused: Option<nat>

    /** Defaults: vertical orientation, looping. */
    constructor (itemCount: int, orientation: Option<Orientation>, loop: Option<bool>)
      ensures this.itemCount == itemCount && activeIndex == 0 && itemRefs == map[] && focused == None
      ensures this.orientation == (if orientation.Some? then orientation.value else Vertical)
      ensures this.loop == (if loop.Some? then loop.value else true)
    {
      this.itemCount := itemCount;
      this.orientation := if orientation.Some? then orientation.value else Vertical;
      this.loop := if loop.Some? then loop.value else true;
      activeIndex := 0;
      itemRefs := map[];
      focused := None;
    }

    /** Focus the element registered at `index`, if one is. */
    method FocusItem(index: int)
      modifies this`focused
      ensures focused == (if index in itemRefs && itemRefs[index].Some? then itemRefs[index] else old(focused))
    {
      if index in itemRefs && itemRefs[index].Some? {
        focused := itemRefs[index];
      }
    }

    /** `handleKeyDown`: move the active index and focus the element there; the result
        says whether the browser default was cancelled. */
    method HandleKeyDown(key: Key) returns (preventDefault: bool)
      modifies this`activeIndex, this`focused
      ensures var n := NextIndex(old(activeIndex), itemCount, orientation, loop, key);
        && preventDefault == n.Some?
        && activeIndex == (if n.Some? then n.value else old(activeIndex))
        && focused == (if n.Some? && n.value in itemRefs && itemRefs[n.value].Some? then itemRefs[n.value] else old(focused))
      ensures 0 <= old(activeIndex) < itemCount ==> 0 <= activeIndex < itemCount
    {
      var n := NextIndex(activeIndex, itemCount, orientation, loop, key);
      if 0 <= activeIndex < itemCount {
        NextIndexInRange(activeIndex, itemCount, orientation, loop, key);
      }
      preventDefault := n.Some?;
      if n.Some? {
        activeIndex := n.value;
        FocusItem(n.value);
      }
    }

    /** The `ref` callback of `getItemProps(index)`. */
    method RegisterRef(index: int, element: Option<nat>)
      modifies this`itemRefs
      ensures itemRefs == old(itemRefs)[index := element]
    {
      itemRefs := itemRefs[index := element];
    }

    /** The `onFocus` handler of `getItemProps(index)`. */
    method OnFocus(index: int)
      modifies this`activeIndex
      ensures activeIndex == index
    {
      activeIndex := index;
    }
  }

  // ---------------------------------------------------------------------------
  // Unique ids
  // ---------------------------------------------------------------------------

  /** The prefix `generateId` uses: the default applies only when no argument is given. */
  function IdPrefix(prefix: Option<string>): string
  {
    if prefix.Some? then prefix.value else "id"
  }

  /** The id generated by the `n`-th call. */
  function IdFor(prefix: Option<string>, n: nat): (r: string)
    ensures AfterLast(r, '-') == NatToString(n)
  {
    var d := NatToString(n);
    assert '-' !in d by {
      forall i | 0 <= i < |d| ensures d[i] != '-' {
        assert IsDigit(d[i]);
      }
    }
    AfterLastSegment(IdPrefix(prefix), '-', d);
    IdPrefix(prefix) + "-" + d
  }

  /** Ids from different calls differ, whatever prefixes the callers chose. */
  lemma IdsDistinct(p: Option<string>, q: Option<string>, m: nat, n: nat)
    requires m != n
    ensures IdFor(p, m) != IdFor(q, n)
  {
    if NatToString(m) == NatToString(n) {
      NatToStringInjective(m, n);
    }
  }

  /** The module-level counter behind `generateId`, with the ids handed out so far. */
  class IdGenerator {
    var idCounter: nat
    ghost var issued: seq<string>

    ghost predicate Valid()
      reads this
    {
      && |issued| == idCounter
      && forall i | 0 <= i < |issued| :: AfterLast(issued[i], '-') == NatToString(i + 1)
    }

    constructor ()
      ensures Valid() && idCounter == 0 && issued == []
    {
      idCounter := 0;
      issued := [];
    }

    /** `generateId(prefix)`: pre-increment the counter and join prefix and count with '-'.
        The new id was never issued before. */
    method GenerateId(prefix: Option<string>) returns (id: string)
      requires Valid()
      modifies this
      ensures Valid()
      ensures idCounter == old(idCounter) + 1
      ensures id == IdPrefix(prefix) + "-" + NatToString(idCounter)
      ensures id !in old(issued)
      ensures issued == old(issued) + [id]
    {
      idCounter := idCounter + 1;
      id := IdFor(prefix, idCounter);
      forall i | 0 <= i < |issued| ensures issued[i] != id {
        if NatToString(i + 1) == NatToString(idCounter) {
          NatToStringInjective(i + 1, idCounter);
        }
      }
      issued := issued + [id];
    }
  }
}
