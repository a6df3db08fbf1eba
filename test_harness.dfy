// The interactive GPUI test harness: sixteen test categories navigated
// cyclically, the event-test state and its reset, and the text shown for
// the held modifier keys. Focus handles and rendering are not modelled.

module GpuiWebTest {
  import opened Wrappers
  import opened Text

  datatype TestCategory =
    | Quads | LayoutFlex | Sizing | Spacing | TextCategory | MouseEvents | KeyboardEvents
    | ScrollWheel | DragDrop | Focus | Tooltips | Shadows | Paths | Underlines | Sprites | StressTests

  /// The categories in sidebar order.
  const All: seq<TestCategory> := [
    Quads, LayoutFlex, Sizing, Spacing, TextCategory, MouseEvents, KeyboardEvents,
    ScrollWheel, DragDrop, Focus, Tooltips, Shadows, Paths, Underlines, Sprites, StressTests]

  const CategoryCount: nat := 16

  /// The position of `c` in All.
  function IndexOf(c: TestCategory): (i: nat)
    ensures i < CategoryCount
  {
    match c
    case Quads => 0
    case LayoutFlex => 1
    case Sizing => 2
    case Spacing => 3
    case TextCategory => 4
    case MouseEvents => 5
    case KeyboardEvents => 6
    case ScrollWheel => 7
    case DragDrop => 8
    case Focus => 9
    case Tooltips => 10
    case Shadows => 11
    case Paths => 12
    case Underlines => 13
    case Sprites => 14
    case StressTests => 15
  }

  /// Every category sits in All at its position ...
  lemma AllAtIndexOf(c: TestCategory)
    ensures All[IndexOf(c)] == c
  {
  }

  /// ... and the category at a position has that position.
  lemma IndexOfAll(i: nat)
    requires i < CategoryCount
    ensures IndexOf(All[i]) == i
  {
  }

  /// All lists sixteen different categories, and every category.
  lemma AllCategories()
    ensures |All| == CategoryCount
    ensures forall i, j | 0 <= i < j < |All| :: All[i] != All[j]
    ensures forall c: TestCategory :: c in All
  {
    forall i, j | 0 <= i < j < |All| ensures All[i] != All[j] {
      IndexOfAll(i);
      IndexOfAll(j);
    }
    forall c: TestCategory ensures c in All {
      AllAtIndexOf(c);
    }
  }

  function Name(c: TestCategory): (name: string)
    ensures |name| > 0
  {
    match c
    case Quads => "Quads"
    case LayoutFlex => "Layout: Flex"
    case Sizing => "Layout: Sizing"
    case Spacing => "Layout: Spacing"
    case TextCategory => "Text"
    case MouseEvents => "Mouse Events"
    case KeyboardEvents => "Keyboard"
    case ScrollWheel => "Scroll/Wheel"
    case DragDrop => "Drag & Drop"
    case Focus => "Focus/Tab"
    case Tooltips => "Tooltips"
    case Shadows => "Shadows"
    case Paths => "Paths"
    case Underlines => "Underlines"
    case Sprites => "Sprites"
    case StressTests => "Stress Tests"
  }

  /// Different categories have different names.
  lemma NamesDistinct(a: TestCategory, b: TestCategory)
    requires a != b
    ensures Name(a) != Name(b)
  {
  }

  function IsImplemented(c: TestCategory): (implemented: bool)
    ensures implemented
  {
    true
  }

  /// Positions one step forward and one step back on the cycle.
  function NextIndex(i: nat): nat
  {
    (i + 1) % CategoryCount
  }

  function PrevIndex(i: nat): nat
  {
    if i == 0 then CategoryCount - 1 else i - 1
  }

  lemma IndexStepsInverse(i: nat)
    requires i < CategoryCount
    ensures PrevIndex(NextIndex(i)) == i && NextIndex(PrevIndex(i)) == i
  {
  }

  /// The category after `c`, the last wrapping to the first.
  function NextOf(c: TestCategory): (n: TestCategory)
    ensures IndexOf(n) == NextIndex(IndexOf(c))
  {
    IndexOfAll(NextIndex(IndexOf(c)));
    All[(IndexOf(c) + 1) % |All|]
  }

  /// The category before `c`, the first wrapping to the last.
  function PrevOf(c: TestCategory): (p: TestCategory)
    ensures IndexOf(p) == PrevIndex(IndexOf(c))
  {
    var i := IndexOf(c);
    IndexOfAll(PrevIndex(i));
    All[if i == 0 then |All| - 1 else i - 1]
  }

  /// A category is determined by its position.
  lemma IndexInjective(a: TestCategory, b: TestCategory)
    requires IndexOf(a) == IndexOf(b)
    ensures a == b
  {
    AllAtIndexOf(a);
    AllAtIndexOf(b);
  }

  /// Going back undoes going forward, and the other way round.
  lemma PrevNextInverse(c: TestCategory)
    ensures PrevOf(NextOf(c)) == c
    ensures NextOf(PrevOf(c)) == c
  {
    IndexStepsInverse(IndexOf(c));
    IndexInjective(PrevOf(NextOf(c)), c);
    IndexInjective(NextOf(PrevOf(c)), c);
  }

  /// `step` applied k times to `x`.
  function Iterate<T>(step: T -> T, x: T, k: nat): T
  {
    if k == 0 then x else step(Iterate(step, x, k - 1))
  }

  /// The category k steps after `c`.
  function NextTimes(c: TestCategory, k: nat): TestCategory
  {
    Iterate(NextOf, c, k)
  }

  /// The position k steps forward from position i.
  function AdvanceIndex(i: nat, k: nat): nat
  {
    if k == 0 then i else NextIndex(AdvanceIndex(i, k - 1))
  }

  /// One step forward from a remainder is the remainder of the successor.
  lemma ModStep(a: nat)
    ensures NextIndex(a % CategoryCount) == (a + 1) % CategoryCount
  {
    var q := a / CategoryCount;
    var r := a % CategoryCount;
    assert a == CategoryCount * q + r;
    if r + 1 == CategoryCount {
      assert a + 1 == CategoryCount * (q + 1);
    } else {
      assert a + 1 == CategoryCount * q + (r + 1);
    }
  }

  /// Moving k steps forward adds k modulo the number of categories.
  lemma {:induction false} AdvanceIsSum(i: nat, k: nat)
    requires i < CategoryCount
    ensures AdvanceIndex(i, k) == (i + k) % CategoryCount
  {
    if k > 0 {
      AdvanceIsSum(i, k - 1);
      ModStep(i + k - 1);
    }
  }

  lemma WholeRounds(i: nat, k: nat)
    requires i < CategoryCount && k % CategoryCount == 0
    ensures AdvanceIndex(i, k) == i
  {
    AdvanceIsSum(i, k);
    assert i + k == CategoryCount * (k / CategoryCount) + i;
  }

  /// A step that moves one position forward moves k positions in k steps.
  lemma {:induction false} IterateAdvances<T>(step: T -> T, position: T -> nat, x: T, k: nat)
    requires forall y :: position(step(y)) == NextIndex(position(y))
    ensures position(Iterate(step, x, k)) == AdvanceIndex(position(x), k)
  {
    if k > 0 {
      IterateAdvances(step, position, x, k - 1);
    }
  }

  /// k steps forward move k places along the cycle ...
  lemma NextAdvances(c: TestCategory, k: nat)
    ensures IndexOf(NextTimes(c, k)) == AdvanceIndex(IndexOf(c), k)
  {
    forall y ensures IndexOf(NextOf(y)) == NextIndex(IndexOf(y)) {
    }
    IterateAdvances(NextOf, IndexOf, c, k);
  }

  /// ... so every whole number of rounds of sixteen steps comes back to
  /// the start.
  lemma NextCycle(c: TestCategory, k: nat)
    requires k % CategoryCount == 0
    ensures NextTimes(c, k) == c
  {
    NextAdvances(c, k);
    WholeRounds(IndexOf(c), k);
    IndexInjective(NextTimes(c, k), c);
  }

  const ModifierOrder: seq<string> := ["Ctrl", "Alt", "Shift", "Meta"]

  /// The position of a modifier name in the order Ctrl, Alt, Shift, Meta.
  function ModifierRank(name: string): nat
  {
    if name == "Ctrl" then 0 else if name == "Alt" then 1 else if name == "Shift" then 2 else 3
  }

  /// The modifier names for the held keys, in the order Ctrl, Alt, Shift,
  /// Meta: only those four names, each exactly when its key is held, each
  /// once, and ranked strictly increasing, which fixes the sequence.
  function ModifierNames(control: bool, alt: bool, shift: bool, platform: bool): (names: seq<string>)
    ensures forall n | n in names :: n in ModifierOrder
    ensures "Ctrl" in names <==> control
    ensures "Alt" in names <==> alt
    ensures "Shift" in names <==> shift
    ensures "Meta" in names <==> platform
    ensures forall i, j | 0 <= i < j < |names| :: ModifierRank(names[i]) < ModifierRank(names[j])
    ensures names <= ModifierOrder || |names| < 4
    ensures |names| == 0 <==> !control && !alt && !shift && !platform
  {
    (if control then ["Ctrl"] else []) + (if alt then ["Alt"] else []) +
    (if shift then ["Shift"] else []) + (if platform then ["Meta"] else [])
  }

  /// Nothing is shown when no modifier is held.
  lemma ModifierTextEmpty(control: bool, alt: bool, shift: bool, platform: bool)
    ensures Join(ModifierNames(control, alt, shift, platform), "+") == "" <==> !control && !alt && !shift && !platform
  {
    var names := ModifierNames(control, alt, shift, platform);
    if |names| > 0 {
      assert |names[0]| > 0;
      if |names| > 1 {
        assert Join(names, "+")[0] == names[0][0];
      }
    }
  }

  /// Everything the harness tracks besides its selected category.
  datatype EventState = EventState(
    clickCount: nat,
    doubleClickCount: nat,
    rightClickCount: nat,
    mousePosition: (real, real),
    lastKey: string,
    lastKeyUp: string,
    activeModifiers: string,
    keyActionFired: bool,
    ctrlSFired: bool,
    scrollDelta: (real, real),
    scrollPosition: real,
    mouseUpCount: nat,
    dragPosition: Option<(real, real)>,
    dropReceived: Option<string>,
    focusedElement: Option<nat>,
    focusEvent: string,
    stressCounter: nat)

  const InitialState: EventState :=
    EventState(0, 0, 0, (0.0, 0.0), "", "", "", false, false, (0.0, 0.0), 0.0, 0, None, None, None, "", 0)

  class TestHarness {
    var selectedCategory: TestCategory
    var state: EventState

    /// A harness opens on Quads with every counter at zero and every
    /// string and option empty.
    constructor ()
      ensures selectedCategory == Quads && state == InitialState
    {
      selectedCategory := Quads;
      state := InitialState;
    }

    method NextCategory()
      modifies this
      ensures selectedCategory == NextOf(old(selectedCategory))
      ensures state == old(state)
    {
      var categories := All;
      var currentIdx := IndexOf(selectedCategory);
      var nextIdx := (currentIdx + 1) % |categories|;
      selectedCategory := categories[nextIdx];
    }

    method PrevCategory()
      modifies this
      ensures selectedCategory == PrevOf(old(selectedCategory))
      ensures state == old(state)
    {
      var categories := All;
      var currentIdx := IndexOf(selectedCategory);
      var prevIdx := if currentIdx == 0 then |categories| - 1 else currentIdx - 1;
      selectedCategory := categories[prevIdx];
    }

    /// Clears the event-test state. The selected category, the mouse-up
    /// count and the focus-event text are left as they are.
    method ResetState()
      modifies this
      ensures selectedCategory == old(selectedCategory)
      ensures state == InitialState.(mouseUpCount := old(state.mouseUpCount), focusEvent := old(state.focusEvent))
    {
      state := state.(clickCount := 0, doubleClickCount := 0, rightClickCount := 0);
      state := state.(mousePosition := (0.0, 0.0));
      state := state.(lastKey := "", lastKeyUp := "", activeModifiers := "");
      state := state.(keyActionFired := false, ctrlSFired := false);
      state := state.(scrollDelta := (0.0, 0.0), scrollPosition := 0.0);
      state := state.(dragPosition := None, dropReceived := None, focusedElement := None);
      state := state.(stressCounter := 0);
    }

    /// The modifiers-changed handler: collects the held modifiers in order
    /// and shows them joined by "+".
    method ModifiersChanged(control: bool, alt: bool, shift: bool, platform: bool)
      modifies this
      ensures state == old(state).(activeModifiers := Join(ModifierNames(control, alt, shift, platform), "+"))
      ensures selectedCategory == old(selectedCategory)
    {
      var mods: seq<string> := [];
      if control {
        mods := mods + ["Ctrl"];
      }
      ghost var held := if control then ["Ctrl"] else [];
      assert mods == held;
      if alt {
        mods := mods + ["Alt"];
      }
      held := held + (if alt then ["Alt"] else []);
      assert mods == held;
      if shift {
        mods := mods + ["Shift"];
      }
      held := held + (if shift then ["Shift"] else []);
      assert mods == held;
      if platform {
        mods := mods + ["Meta"];
      }
      held := held + (if platform then ["Meta"] else []);
      assert mods == held == ModifierNames(control, alt, shift, platform);
      state := state.(activeModifiers := if |mods| == 0 then "" else Join(mods, "+"));
    }
  }
}
