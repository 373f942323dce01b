/** The slash-command menu's keyboard handling
    (src/components/tiptap/editor/ui/slash-command-list.tsx). The list
    element is a `ListView` with its scroll position; the commands passed to
    `onSelect` are recorded in order. */
module SlashCommandList {
  import opened SlashCommand

  /** `['ArrowUp', 'ArrowDown', 'Enter'].includes(key)` */
  predicate NavigationKey(key: string) {
    key == "ArrowUp" || key == "ArrowDown" || key == "Enter"
  }

  /** The `ArrowUp` index update. */
  function ArrowUp(prev: int, length: int): int {
    if prev > 0 then prev - 1 else length - 1
  }

  /** The `ArrowDown` index update. */
  function ArrowDown(prev: int, length: int): int {
    if prev < length - 1 then prev + 1 else 0
  }

  /** On a non-empty list both keys keep the index in range, wrap at the
      ends, and undo each other. */
  lemma Navigation(prev: int, length: int)
    requires 0 <= prev < length
    ensures 0 <= ArrowUp(prev, length) < length && 0 <= ArrowDown(prev, length) < length
    ensures prev == 0 ==> ArrowUp(prev, length) == length - 1
    ensures prev == length - 1 ==> ArrowDown(prev, length) == 0
    ensures ArrowUp(ArrowDown(prev, length), length) == prev
    ensures ArrowDown(ArrowUp(prev, length), length) == prev
  {
  }

  /** The item whose top is `top`, as the browser lays it out. */
  datatype Box = Box(offsetTop: int, offsetHeight: nat)

  /** The new `scrollTop` for a child at `top` with height `height`: scroll
      up to it, scroll down to its bottom, or leave the view as it is. */
  function ScrolledTo(scrollTop: int, containerHeight: nat, top: int, height: nat): (r: int)
    ensures top < scrollTop ==> r == top
    ensures top >= scrollTop && top + height > scrollTop + containerHeight ==> r == top + height - containerHeight
    ensures top >= scrollTop && top + height <= scrollTop + containerHeight ==> r == scrollTop
  {
    if top < scrollTop then top
    else if top + height > scrollTop + containerHeight then top + height - containerHeight
    else scrollTop
  }

  /** Afterwards the element is in view whenever it fits the container. */
  lemma ScrolledVisible(scrollTop: int, containerHeight: nat, top: int, height: nat)
    requires height <= containerHeight
    ensures var s := ScrolledTo(scrollTop, containerHeight, top, height);
      s <= top && top + height <= s + containerHeight
  {
  }

  /** The list element `commandListRef.current`. */
  class ListView {
    var scrollTop: int
    const clientHeight: nat
    const children: seq<Box>

    constructor (children: seq<Box>, clientHeight: nat, scrollTop: int)
      ensures this.children == children && this.clientHeight == clientHeight && this.scrollTop == scrollTop
    {
      this.children := children;
      this.clientHeight := clientHeight;
      this.scrollTop := scrollTop;
    }
  }

  class SlashMenu {
    var items: seq<SlashItem>
    var selectedIndex: int
    /** The commands handed to `onSelect`, in order. */
    var selected: seq<nat>
    /** `commandListRef.current`; `null` while nothing is rendered. */
    const view: ListView?

    constructor (items: seq<SlashItem>, view: ListView?)
      ensures this.items == items && selectedIndex == 0 && selected == [] && this.view == view
    {
      this.items := items;
      selectedIndex := 0;
      selected := [];
      this.view := view;
    }

    /** `scrollSelectedIntoView(index)`: nothing without a list or a child at
        `index`. */
    method ScrollSelectedIntoView(index: int)
      modifies view
      ensures view != null && 0 <= index < |view.children| ==>
        view.scrollTop == ScrolledTo(old(view.scrollTop), view.clientHeight,
          view.children[index].offsetTop, view.children[index].offsetHeight)
      ensures view != null && !(0 <= index < |view.children|) ==> view.scrollTop == old(view.scrollTop)
    {
      if view == null || !(0 <= index < |view.children|) {
        return;
      }
      var element := view.children[index];
      view.scrollTop := ScrolledTo(view.scrollTop, view.clientHeight, element.offsetTop, element.offsetHeight);
    }

    /** The document `keydown` listener. `prevented` is whether
        `preventDefault` was called. */
    method OnKeyDown(key: string) returns (prevented: bool)
      modifies this, view
      ensures prevented <==> NavigationKey(key)
      ensures items == old(items)
      ensures key == "ArrowUp" ==> selectedIndex == ArrowUp(old(selectedIndex), |items|)
      ensures key == "ArrowDown" ==> selectedIndex == ArrowDown(old(selectedIndex), |items|)
      ensures key != "ArrowUp" && key != "ArrowDown" ==> selectedIndex == old(selectedIndex)
      ensures key == "Enter" && 0 <= old(selectedIndex) < |items| ==> selected == old(selected) + [items[old(selectedIndex)].command]
      ensures !(key == "Enter" && 0 <= old(selectedIndex) < |items|) ==> selected == old(selected)
      ensures (key == "ArrowUp" || key == "ArrowDown") && view != null && 0 <= selectedIndex < |view.children| ==>
        view.scrollTop == ScrolledTo(old(view.scrollTop), view.clientHeight,
          view.children[selectedIndex].offsetTop, view.children[selectedIndex].offsetHeight)
      ensures !(key == "ArrowUp" || key == "ArrowDown") ==> view == null || view.scrollTop == old(view.scrollTop)
    {
      if !NavigationKey(key) {
        return false;
      }
      prevented := true;
      if key == "ArrowUp" {
        var newIndex := ArrowUp(selectedIndex, |items|);
        ScrollSelectedIntoView(newIndex);
        selectedIndex := newIndex;
        return;
      }
      if key == "ArrowDown" {
        var newIndex := ArrowDown(selectedIndex, |items|);
        ScrollSelectedIntoView(newIndex);
        selectedIndex := newIndex;
        return;
      }
      if 0 <= selectedIndex < |items| {
        selected := selected + [items[selectedIndex].command];
      }
    }

    /** A new item list (the `[items]` effect) starts again at the top. */
    method SetItems(newItems: seq<SlashItem>)
      modifies this
      ensures items == newItems && selectedIndex == 0 && selected == old(selected)
    {
      items := newItems;
      selectedIndex := 0;
    }
  }

  /** `handleSlashCommandNavigation(event)`: `true` for a navigation key
      while the menu is in the document, `undefined` (`false` here)
      otherwise. */
  function HandleSlashCommandNavigation(key: string, menuPresent: bool): (handled: bool)
    ensures handled <==> NavigationKey(key) && menuPresent
  {
    if NavigationKey(key) then menuPresent else false
  }
}
