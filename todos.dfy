/** The todo list as a value: its records, the three edits the handlers make
    to it, and the lines the list box shows for it. */
module Todos {
  import opened Wrappers
  import opened Text
  import Entry

  /** One record of `todos.json`: `{"text": ..., "completed": ...}`. */
  datatype Item = Item(text: string, completed: bool)

  /** The list after `add_todo` with the given entry text: the stripped text,
      not yet completed, is appended when the entry is accepted; otherwise
      the list is unchanged. */
  function Appended(todos: seq<Item>, entry: string): (r: seq<Item>)
    ensures |r| == if Entry.Accepts(entry) then |todos| + 1 else |todos|
    ensures r[..|todos|] == todos
    ensures |r| > |todos| ==> r[|todos|] == Item(Trim(entry), false)
  {
    if Entry.Accepts(entry) then todos + [Item(Trim(entry), false)] else todos
  }

  /** An appended item is pending, has no surrounding whitespace, is not empty
      and is not the placeholder. */
  lemma AppendedItemIsClean(todos: seq<Item>, entry: string)
    requires Entry.Accepts(entry)
    ensures var it := Appended(todos, entry)[|todos|];
      && !it.completed
      && it.text != []
      && it.text != Entry.Placeholder
      && Trim(it.text) == it.text
  {
    TrimIdempotent(entry);
  }

  /** `add_todo` applied once per entry, in order. */
  function AppendedAll(todos: seq<Item>, entries: seq<string>): (r: seq<Item>)
    ensures |todos| <= |r| <= |todos| + |entries|
  {
    if entries == [] then todos
    else Appended(AppendedAll(todos, entries[..|entries| - 1]), entries[|entries| - 1])
  }

  /** Adding accepted entries one after another grows the list by one item per
      entry and keeps their order. */
  lemma {:induction false} AppendedAllInOrder(todos: seq<Item>, entries: seq<string>)
    requires forall k :: 0 <= k < |entries| ==> Entry.Accepts(entries[k])
    ensures |AppendedAll(todos, entries)| == |todos| + |entries|
    ensures AppendedAll(todos, entries)[..|todos|] == todos
    ensures forall k :: 0 <= k < |entries| ==>
      AppendedAll(todos, entries)[|todos| + k] == Item(Trim(entries[k]), false)
  {
    if entries != [] {
      var front := entries[..|entries| - 1];
      AppendedAllInOrder(todos, front);
      var before := AppendedAll(todos, front);
      var after := AppendedAll(todos, entries);
      assert after == Appended(before, entries[|entries| - 1]);
      assert after[..|before|] == before;
      forall k | 0 <= k < |entries|
        ensures after[|todos| + k] == Item(Trim(entries[k]), false)
      {
        if k < |front| {
          assert after[|todos| + k] == after[..|before|][|todos| + k];
        }
      }
      assert after[..|todos|] == after[..|before|][..|todos|];
    }
  }

  /** The list after `toggle_todo(index)`: inside the bounds only the
      completion flag of that item is negated; outside them nothing happens. */
  function Toggled(todos: seq<Item>, index: int): (r: seq<Item>)
    ensures |r| == |todos|
    ensures forall k :: 0 <= k < |r| && k != index ==> r[k] == todos[k]
    ensures 0 <= index < |todos| ==>
      r[index].text == todos[index].text && r[index].completed == !todos[index].completed
    ensures !(0 <= index < |todos|) ==> r == todos
  {
    if 0 <= index < |todos| then
      todos[index := todos[index].(completed := !todos[index].completed)]
    else
      todos
  }

  /** Toggling the same index twice restores the list. */
  lemma ToggleInvolution(todos: seq<Item>, index: int)
    ensures Toggled(Toggled(todos, index), index) == todos
  {
    var once := Toggled(todos, index);
    var twice := Toggled(once, index);
    assert forall k :: 0 <= k < |todos| ==> twice[k] == todos[k];
  }

  /** Toggles of two indices can be done in either order. */
  lemma ToggleCommutes(todos: seq<Item>, i: int, j: int)
    ensures Toggled(Toggled(todos, i), j) == Toggled(Toggled(todos, j), i)
  {
    var a := Toggled(Toggled(todos, i), j);
    var b := Toggled(Toggled(todos, j), i);
    assert forall k :: 0 <= k < |todos| ==> a[k] == b[k];
  }

  /** The list after `del todos[index]` guarded by `0 <= index < len(todos)`:
      items before the index stay put, items after it move down by one. */
  function Deleted(todos: seq<Item>, index: int): (r: seq<Item>)
    ensures 0 <= index < |todos| ==> |r| == |todos| - 1
    ensures 0 <= index < |todos| ==> forall k :: 0 <= k < index ==> r[k] == todos[k]
    ensures 0 <= index < |todos| ==> forall k :: index <= k < |r| ==> r[k] == todos[k + 1]
    ensures !(0 <= index < |todos|) ==> r == todos
  {
    if 0 <= index < |todos| then todos[..index] + todos[index + 1..] else todos
  }

  /** Putting the removed item back at its index gives the original list, so
      delete removes exactly that one item and reorders nothing. */
  lemma DeleteInverse(todos: seq<Item>, index: int)
    requires 0 <= index < |todos|
    ensures var r := Deleted(todos, index); r[..index] + [todos[index]] + r[index..] == todos
    ensures multiset(Deleted(todos, index)) + multiset{todos[index]} == multiset(todos)
  {
    var r := Deleted(todos, index);
    var back := r[..index] + [todos[index]] + r[index..];
    assert |back| == |todos|;
    forall k | 0 <= k < |todos| ensures back[k] == todos[k] {
      if k < index {
        assert back[k] == r[k];
      } else if k > index {
        assert back[k] == r[k - 1];
      }
    }
    assert back == todos;
    calc {
      multiset(todos);
      multiset(r[..index] + [todos[index]] + r[index..]);
      multiset(r[..index]) + multiset{todos[index]} + multiset(r[index..]);
      { assert r == r[..index] + r[index..]; }
      multiset(r) + multiset{todos[index]};
    }
  }

  /** Glyph prefix of a completed item (CHECK MARK and a space). */
  const DoneMark: string := "\U{2713} "
  /** Glyph prefix of a pending item (WHITE CIRCLE and a space). */
  const PendingMark: string := "\U{25CB} "

  /** The list-box line for one item. */
  function Line(item: Item): (r: string)
    ensures |r| == |item.text| + 2 && r[2..] == item.text
    ensures r[1] == ' ' && (r[0] == '\U{2713}' <==> item.completed)
  {
    (if item.completed then DoneMark else PendingMark) + item.text
  }

  /** The lines `update_todo_list` shows, one per item, in list order. */
  function Render(todos: seq<Item>): (r: seq<string>)
    ensures |r| == |todos|
    ensures forall k :: 0 <= k < |todos| ==> r[k] == Line(todos[k])
  {
    if todos == [] then []
    else Render(todos[..|todos| - 1]) + [Line(todos[|todos| - 1])]
  }

  /** Reads an item back from its list-box line. */
  function ParseLine(line: string): Option<Item>
  {
    if |line| >= 2 && line[..2] == DoneMark then Some(Item(line[2..], true))
    else if |line| >= 2 && line[..2] == PendingMark then Some(Item(line[2..], false))
    else None
  }

  /** A line shows its item's completion state and its full text: the item
      can be read back from it. */
  lemma LineRoundTrip(item: Item)
    ensures ParseLine(Line(item)) == Some(item)
  {
    var line := Line(item);
    assert line[..2] == (if item.completed then DoneMark else PendingMark);
    assert line[2..] == item.text;
  }

  /** Different lists are shown differently: the display determines the
      list, texts, flags and order included. */
  lemma RenderInjective(a: seq<Item>, b: seq<Item>)
    requires Render(a) == Render(b)
    ensures a == b
  {
    forall k | 0 <= k < |a| ensures a[k] == b[k] {
      LineRoundTrip(a[k]);
      LineRoundTrip(b[k]);
    }
  }
}
