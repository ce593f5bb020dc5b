/** `FloatingTodoApp` without its widgets: the todo list, what the list box
    and the entry field hold, the font size, the window size, the resize drag
    in progress and the last snapshot written to `todos.json`. Gestures reach
    the handlers as parameters: the entry text is a field the user edits, the
    clicked row and the list box selection are indices, and pointer positions
    and the window size are integers. The content of `todos.json` is a field,
    and how each write of it ends is a parameter. */
module App {
  import opened Wrappers
  import opened Text
  import opened Entry
  import opened Todos
  import opened Window

  /** What `todos.json` holds: no file, the JSON of a list of records, or
      content that `load_todos` cannot read back as a list (an empty or
      truncated file left by a failed write, or anything else that opening or
      `json.load` rejects). */
  datatype FileState = NoFile | Intact(items: seq<Item>) | Damaged

  /** How one call of `save_todos` ends: the list was written; `open` failed
      and the file was not touched; or the file was opened for writing, which
      empties it, and then `json.dump` or closing it failed, leaving it empty
      or truncated. Every failure is reported and swallowed. */
  datatype WriteOutcome = Written | OpenFailed | WriteFailed

  /** The file after a write of `items` that ended with `outcome`. */
  function AfterWrite(file: FileState, items: seq<Item>, outcome: WriteOutcome): FileState
  {
    match outcome
    case Written => Intact(items)
    case OpenFailed => file
    case WriteFailed => Damaged
  }

  /** Where a resize drag started and how large the window was then. */
  datatype Drag = Drag(startX: int, startY: int, initialWidth: int, initialHeight: int)

  class FloatingTodoApp {
    var todos: seq<Item>
    /** The lines of the list box. */
    var shown: seq<string>
    /** The text of the entry field. */
    var entry: string
    var fontSize: int
    /** The window size last requested with `geometry`. */
    var width: int
    var height: int
    /** Set by `start_resize`; before the first drag the attributes do not
        exist and `do_resize` fails without effect. */
    var drag: Option<Drag>
    /** The content of `todos.json`. */
    var file: FileState

    /** The list box always shows the current list, the font size stays in
        [8, 20] and the window is never smaller than its minimum size. */
    ghost predicate Valid()
      reads this`todos, this`shown, this`fontSize, this`width, this`height
    {
      && shown == Render(todos)
      && FontSizeInRange(fontSize)
      && width >= MinWidth && height >= MinHeight
    }

    /** `__init__` with `todos.json` holding `stored`: an empty list, the
        placeholder in the entry, font size 11, a 350 x 500 window, then the
        start-up load. */
    constructor (stored: FileState)
      ensures Valid()
      ensures todos == (if stored.Intact? then stored.items else [])
      ensures entry == Placeholder && fontSize == DefaultFontSize
      ensures width == InitialWidth && height == InitialHeight
      ensures drag == None && file == stored
    {
      todos := [];
      shown := [];
      entry := Placeholder;
      fontSize := DefaultFontSize;
      width, height := InitialWidth, InitialHeight;
      drag := None;
      file := stored;
      new;
      Load();
    }

    /** `load_todos`: the list in an intact file replaces the list and is
        shown; a missing or damaged file leaves the list as it was. */
    method Load()
      requires Valid()
      modifies this
      ensures Valid()
      ensures todos == (if file.Intact? then file.items else old(todos))
      ensures entry == old(entry) && fontSize == old(fontSize) && file == old(file)
      ensures width == old(width) && height == old(height) && drag == old(drag)
    {
      match file {
        case Intact(items) =>
          todos := items;
          UpdateTodoList();
        case _ =>
      }
    }

    /** `save_todos`: a completed write makes the file hold the whole list; a
        failed `open` leaves it as it was; a failure after `open` leaves it
        damaged. */
    method Save(outcome: WriteOutcome)
      modifies this`file
      ensures file == AfterWrite(old(file), todos, outcome)
    {
      match outcome {
        case Written => file := Intact(todos);
        case OpenFailed =>
        case WriteFailed => file := Damaged;
      }
    }

    /** `update_todo_list`: clears the list box and inserts one line per item,
        a check mark for completed items and a circle for pending ones. */
    method UpdateTodoList()
      modifies this`shown
      ensures shown == Render(todos)
    {
      shown := [];
      var i := 0;
      while i < |todos|
        invariant 0 <= i <= |todos|
        invariant shown == Render(todos[..i])
      {
        var line;
        if todos[i].completed {
          line := DoneMark + todos[i].text;
        } else {
          line := PendingMark + todos[i].text;
        }
        assert todos[..i + 1][..i] == todos[..i];
        shown := shown + [line];
        i := i + 1;
      }
      assert todos[..i] == todos;
    }

    /** `add_todo` (Enter in the entry field): an accepted entry is appended
        as a pending item, shown, cleared from the field and saved; any other
        entry changes nothing. */
    method AddTodo(outcome: WriteOutcome)
      requires Valid()
      modifies this
      ensures Valid()
      ensures todos == Appended(old(todos), old(entry))
      ensures entry == if Accepts(old(entry)) then [] else old(entry)
      ensures file == if Accepts(old(entry)) then AfterWrite(old(file), todos, outcome) else old(file)
      ensures fontSize == old(fontSize) && width == old(width) && height == old(height)
      ensures drag == old(drag)
    {
      var text := Trim(entry);
      if text != [] && text != Placeholder {
        todos := todos + [Item(text, false)];
        assert todos == Appended(old(todos), old(entry));
        UpdateTodoList();
        entry := [];
        Save(outcome);
      }
    }

    /** `toggle_todo`: inside the bounds the item's completion flag is negated,
        shown and saved; outside them nothing happens. */
    method ToggleTodo(index: int, outcome: WriteOutcome)
      requires Valid()
      modifies this
      ensures Valid()
      ensures todos == Toggled(old(todos), index)
      ensures file == if 0 <= index < |old(todos)| then AfterWrite(old(file), todos, outcome) else old(file)
      ensures entry == old(entry) && fontSize == old(fontSize)
      ensures width == old(width) && height == old(height) && drag == old(drag)
    {
      if 0 <= index < |todos| {
        todos := todos[index := todos[index].(completed := !todos[index].completed)];
        UpdateTodoList();
        Save(outcome);
      }
    }

    /** `on_list_click` with the row nearest the pointer (-1 when the list
        box is empty): only ever the bound-checked toggle. */
    method OnListClick(row: int, outcome: WriteOutcome)
      requires Valid()
      modifies this
      ensures Valid()
      ensures todos == Toggled(old(todos), row)
      ensures file == if 0 <= row < |old(todos)| then AfterWrite(old(file), todos, outcome) else old(file)
      ensures entry == old(entry) && fontSize == old(fontSize)
      ensures width == old(width) && height == old(height) && drag == old(drag)
    {
      if row >= 0 {
        ToggleTodo(row, outcome);
      }
    }

    /** `delete_selected_todo` (the context menu's delete) with the list box
        selection: the first selected index, when in bounds, is removed, the
        list shown and saved; an empty selection or a stale index changes
        nothing. */
    method DeleteSelectedTodo(selected: seq<int>, outcome: WriteOutcome)
      requires Valid()
      modifies this
      ensures Valid()
      ensures todos == if selected == [] then old(todos) else Deleted(old(todos), selected[0])
      ensures file == if selected != [] && 0 <= selected[0] < |old(todos)|
        then AfterWrite(old(file), todos, outcome) else old(file)
      ensures entry == old(entry) && fontSize == old(fontSize)
      ensures width == old(width) && height == old(height) && drag == old(drag)
    {
      if selected != [] {
        var index := selected[0];
        if 0 <= index < |todos| {
          todos := todos[..index] + todos[index + 1..];
          assert todos == Deleted(old(todos), index);
          UpdateTodoList();
          Save(outcome);
        }
      }
    }

    /** `increase_font_size` (Control-plus, Control-equal). */
    method IncreaseFontSize()
      requires Valid()
      modifies this`fontSize
      ensures Valid()
      ensures fontSize == Increased(old(fontSize))
    {
      if fontSize < MaxFontSize {
        fontSize := fontSize + 1;
      }
    }

    /** `decrease_font_size` (Control-minus). */
    method DecreaseFontSize()
      requires Valid()
      modifies this`fontSize
      ensures Valid()
      ensures fontSize == Decreased(old(fontSize))
    {
      if fontSize > MinFontSize {
        fontSize := fontSize - 1;
      }
    }

    /** `start_resize`: remembers the pointer position and the window's
        current size as reported by the toolkit. */
    method StartResize(pointerX: int, pointerY: int, currentWidth: int, currentHeight: int)
      modifies this`drag
      ensures drag == Some(Drag(pointerX, pointerY, currentWidth, currentHeight))
    {
      drag := Some(Drag(pointerX, pointerY, currentWidth, currentHeight));
    }

    /** `do_resize`: each side becomes its size at the start of the drag plus
        the pointer's displacement, clamped to the minimum size. */
    method DoResize(pointerX: int, pointerY: int)
      requires Valid()
      modifies this`width, this`height
      ensures Valid()
      ensures drag.None? ==> width == old(width) && height == old(height)
      ensures drag.Some? ==>
        && width == Extent(drag.value.initialWidth, pointerX - drag.value.startX, MinWidth)
        && height == Extent(drag.value.initialHeight, pointerY - drag.value.startY, MinHeight)
    {
      if drag.Some? {
        var d := drag.value;
        var dx := pointerX - d.startX;
        var dy := pointerY - d.startY;
        width := if d.initialWidth + dx >= MinWidth then d.initialWidth + dx else MinWidth;
        height := if d.initialHeight + dy >= MinHeight then d.initialHeight + dy else MinHeight;
      }
    }

    /** `clear_placeholder` (focus in). */
    method ClearPlaceholder()
      modifies this`entry
      ensures entry == Clear(old(entry))
    {
      if entry == Placeholder {
        entry := [];
      }
    }

    /** `restore_placeholder` (focus out), with the correction that a
        whitespace-only entry is replaced by the placeholder rather than
        prefixed with it. */
    method RestorePlaceholder()
      modifies this`entry
      ensures entry == Restore(old(entry))
    {
      if Trim(entry) == [] {
        entry := Placeholder;
      }
    }
  }

  /** Typing, into the empty field, a text without surrounding whitespace
      that is not the placeholder and pressing Enter appends it, pending and unchanged, clears
      the field and, when the write completes, saves the new list. */
  method TypeAndAdd(app: FloatingTodoApp, text: string)
    requires app.Valid() && app.entry == [] && Clean(text)
    modifies app
    ensures app.Valid()
    ensures app.todos == old(app.todos) + [Item(text, false)]
    ensures app.entry == [] && app.file == Intact(app.todos)
  {
    app.entry := text;
    AcceptsCore(text);
    app.AddTodo(Written);
  }

  /** A session from start-up without a file: add `first` (say "Buy milk"),
      complete it with a click, add `second` (say "Call mom") and delete the
      first item, with every write completing. The list box and the file end
      up holding just `second`, pending, and the next session starts with
      that list. */
  method AddToggleAddDeleteSession(first: string, second: string)
    requires Clean(first) && Clean(second)
  {
    var app := new FloatingTodoApp(NoFile);
    app.ClearPlaceholder();
    assert app.entry == [];
    TypeAndAdd(app, first);
    assert app.todos == [Item(first, false)];
    app.OnListClick(0, Written);
    assert app.todos == [Item(first, true)];
    TypeAndAdd(app, second);
    assert app.todos == [Item(first, true), Item(second, false)];
    app.DeleteSelectedTodo([0], Written);
    assert app.todos == [Item(second, false)];
    assert app.shown == [PendingMark + second];
    assert app.file == Intact(app.todos);
    var next := new FloatingTodoApp(app.file);
    assert next.todos == [Item(second, false)];
  }

  /** A missing or damaged file at start-up gives an empty list; an intact
      file gives its list. */
  method StartupScenario(snapshot: seq<Item>)
  {
    var a := new FloatingTodoApp(NoFile);
    assert a.todos == [] && a.shown == [];
    var b := new FloatingTodoApp(Damaged);
    assert b.todos == [];
    var c := new FloatingTodoApp(Intact(snapshot));
    assert c.todos == snapshot && c.shown == Render(snapshot);
  }

  /** A write that fails after `open` loses the saved list: the session goes
      on with its list, but the next one starts empty. */
  method FailedWriteScenario(item: Item)
  {
    var app := new FloatingTodoApp(Intact([item]));
    assert app.todos == [item];
    app.ToggleTodo(0, WriteFailed);
    assert app.todos == [item.(completed := !item.completed)];
    assert app.file == Damaged;
    var next := new FloatingTodoApp(app.file);
    assert next.todos == [];
  }
}
