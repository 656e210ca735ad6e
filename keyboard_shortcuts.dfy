/** The keyboard-shortcut help (src/app/components/keyboard-shortcuts/keyboard-shortcuts.component.ts):
    a modal toggled by '?' and closed by Escape, listing a fixed table of shortcuts by category.
    `document.activeElement` is a parameter. */
module KeyboardShortcuts {
  import opened Wrappers
  import opened Seqs

  datatype Shortcut = Shortcut(keys: seq<string>, description: string, category: string)

  /** The focused element, as far as `isInputFocused` looks at it. */
  datatype ActiveElement = ActiveElement(tagName: string, isContentEditable: bool)

  const Shortcuts: seq<Shortcut> := [
    Shortcut(["?"], "Show keyboard shortcuts", "General"),
    Shortcut(["Esc"], "Close modals / Cancel", "General"),
    Shortcut(["/", "Ctrl", "K"], "Focus command input", "Navigation"),
    Shortcut(["G", "H"], "Go to GitHub repository", "Navigation"),
    Shortcut(["G", "A"], "Go to GitHub Actions", "Navigation"),
    Shortcut(["Enter"], "Submit command", "Commands"),
    Shortcut(["Shift", "Enter"], "New line in command", "Commands"),
    Shortcut(["↑"], "Previous command", "Commands"),
    Shortcut(["↓"], "Next command", "Commands")
  ]

  const Categories: seq<string> := ["General", "Navigation", "Commands"]

  /** `isInputFocused()`: an input, a text area or an editable element has the focus. */
  function IsInputFocused(active: Option<ActiveElement>): (r: bool)
    ensures active.None? ==> !r
    ensures active.Some? && active.value.isContentEditable ==> r
    ensures active.Some? && !active.value.isContentEditable ==>
              (r <==> active.value.tagName == "INPUT" || active.value.tagName == "TEXTAREA")
  {
    active.Some? && (active.value.tagName == "INPUT" || active.value.tagName == "TEXTAREA" || active.value.isContentEditable)
  }

  /** The modal's open state after a key press, as `handleKeydown` decides it. */
  function AfterKey(isOpen: bool, key: string, inputFocused: bool): (r: bool)
    ensures key == "Escape" ==> !r
    ensures key != "?" && key != "Escape" ==> r == isOpen
  {
    if key == "?" && !inputFocused then !isOpen
    else if key == "Escape" && isOpen then false
    else isOpen
  }

  /** '?' outside an input toggles, and twice restores; '?' inside an input does nothing; Escape
      closes and only matters when open; every other key does nothing. */
  lemma AfterKeyProperties(isOpen: bool, key: string, inputFocused: bool)
    ensures !inputFocused ==> AfterKey(isOpen, "?", inputFocused) == !isOpen
    ensures AfterKey(AfterKey(isOpen, "?", false), "?", false) == isOpen
    ensures AfterKey(isOpen, "?", true) == isOpen
    ensures !AfterKey(isOpen, "Escape", inputFocused)
    ensures !isOpen ==> AfterKey(isOpen, "Escape", inputFocused) == isOpen
    ensures key != "?" && key != "Escape" ==> AfterKey(isOpen, key, inputFocused) == isOpen
  {
  }

  function InCategory(category: string): Shortcut -> bool {
    (s: Shortcut) => s.category == category
  }

  /** `getShortcutsByCategory(category)`: every listed shortcut is in the table with that category,
      and every such shortcut of the table is listed. */
  function ShortcutsByCategory(category: string): (r: seq<Shortcut>)
    ensures forall i :: 0 <= i < |r| ==> r[i].category == category && r[i] in Shortcuts
    ensures forall i :: 0 <= i < |Shortcuts| && Shortcuts[i].category == category ==> Shortcuts[i] in r
  {
    var r := Filter(Shortcuts, InCategory(category));
    assert forall i :: 0 <= i < |r| ==> r[i] in Shortcuts by {
      forall i | 0 <= i < |r| ensures r[i] in Shortcuts {
        FilterMembership(Shortcuts, InCategory(category), r[i]);
      }
    }
    assert forall i :: 0 <= i < |Shortcuts| && Shortcuts[i].category == category ==> Shortcuts[i] in r by {
      forall i | 0 <= i < |Shortcuts| && Shortcuts[i].category == category ensures Shortcuts[i] in r {
        FilterMembership(Shortcuts, InCategory(category), Shortcuts[i]);
      }
    }
    r
  }

  /** Exactly the shortcuts of the category are listed, and in table order: the listing of any
      split of the table is the listings of its parts, joined. */
  lemma ShortcutsByCategoryExact(category: string, s: Shortcut, front: seq<Shortcut>, back: seq<Shortcut>)
    ensures s in ShortcutsByCategory(category) <==> s in Shortcuts && s.category == category
    ensures Shortcuts == front + back ==>
              ShortcutsByCategory(category) == Filter(front, InCategory(category)) + Filter(back, InCategory(category))
  {
    FilterMembership(Shortcuts, InCategory(category), s);
    FilterAppend(front, back, InCategory(category));
  }

  /** Every shortcut belongs to one of the three listed categories. */
  lemma CategoriesCoverShortcuts()
    ensures forall i :: 0 <= i < |Shortcuts| ==> Shortcuts[i].category in Categories
  {
  }

  class KeyboardShortcutsComponent {
    var isOpen: bool

    constructor ()
      ensures !isOpen
    {
      isOpen := false;
    }

    /** `handleKeydown(event)`: returns whether the default action was prevented. */
    method HandleKeydown(key: string, active: Option<ActiveElement>) returns (preventDefault: bool)
      modifies this
      ensures isOpen == AfterKey(old(isOpen), key, IsInputFocused(active))
      ensures preventDefault <==> key == "?" && !IsInputFocused(active)
    {
      preventDefault := false;
      if key == "?" && !IsInputFocused(active) {
        preventDefault := true;
        Toggle();
      } else if key == "Escape" && isOpen {
        Close();
      }
    }

    method Toggle()
      modifies this
      ensures isOpen == !old(isOpen)
    {
      isOpen := !isOpen;
    }

    method Open()
      modifies this
      ensures isOpen
    {
      isOpen := true;
    }

    method Close()
      modifies this
      ensures !isOpen
    {
      isOpen := false;
    }

    function GetShortcutsByCategory(category: string): seq<Shortcut> {
      ShortcutsByCategory(category)
    }
  }
}
