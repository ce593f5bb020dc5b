# Floating todo list — Dafny model

This project models the state behind `FloatingTodoApp`, a small floating,
slightly transparent desktop todo widget written with tkinter. With the
widgets stripped away, the application is a handful of fields that its event
handlers update:

- the todo list, an ordered sequence of `{text, completed}` records that
  Enter in the entry field appends to, a click on a row toggles and the
  context menu's delete removes from;
- the lines of the list box, rebuilt after every change with a check mark
  (completed) or a circle (pending) in front of each text;
- the text of the entry field, with its grey placeholder hint that focus-in
  hides and focus-out shows again;
- the list's font size, changed one point at a time by Control-plus /
  Control-equal and Control-minus within [8, 20];
- the window size chosen while dragging the resize handle, never below the
  300 x 400 minimum;
- the content of `todos.json`, rewritten after every change and read at
  start-up.

Modules:

- `Text` (`text.dfy`): Python's `str.strip()` over the exact set of 29 code
  points for which `str.isspace()` holds, with lemmas that the result is the
  slice between the leading and trailing whitespace, that it is empty exactly
  for all-whitespace input, and that stripping is idempotent.
- `Entry` (`entry.dfy`): the placeholder, the acceptance guard of `add_todo`,
  and the focus-in and focus-out handlers, with the bug described under
  Findings.
- `Todos` (`todos.dfy`): the `Item` record and the list edits as functions
  (`Appended`, `Toggled`, `Deleted`) and the display (`Line`, `Render`), with
  their properties: append keeps the prefix and adds one clean item, toggle is
  an involution that touches one flag, delete shifts the tail and can be
  undone by re-inserting, and the display determines the list.
- `Window` (`window.dfy`): font-size steps and the resize clamp.
- `App` (`app.dfy`): the class `FloatingTodoApp` whose fields are the state
  above and whose methods are the handlers. Its invariant `Valid()` says that
  the list box always shows `Render(todos)`, the font size stays in [8, 20]
  and the window is never below its minimum size. Every method's `ensures`
  gives the new state as the corresponding function of the old one and says
  which fields did not change.

Inputs that come from the toolkit or the operating system are parameters:
the clicked row (`nearest(event.y)`) and the list box selection
(`curselection()`) are integers, pointer positions and the window size
reported by `winfo_width`/`winfo_height` are integers, and the user's typing
is an assignment to the `entry` field. The content of `todos.json` is a field
of type `FileState`: no file, an intact list, or damaged content that
`load_todos` cannot read back. How each write ends is a `WriteOutcome`
parameter: the list was written; `open` failed and the file is untouched; or
`open(..., "w")` had already emptied the file when `json.dump` failed, so the
file is left empty or truncated.

Records read from `todos.json` are not checked, so `Load` accepts any list,
empty texts included. `Todos.AppendedAllInOrder` does not need the added texts
to be distinct.

## Model

| member | source | states |
|---|---|---|
| `Text.IsSpace` | tool_app.py:232 | a character is whitespace for `strip()` exactly when it is one of the 29 code points listed one by one in `Whitespace` |
| `Text.TrimStart` | tool_app.py:232 | `lstrip()` never lengthens the text |
| `Text.TrimEnd` | tool_app.py:232 | `rstrip()` never lengthens the text |
| `Text.TrimStartIsSuffix` | tool_app.py:232 | `lstrip()` keeps a suffix that does not start with whitespace and drops only whitespace |
| `Text.TrimEndIsPrefix` | tool_app.py:232 | `rstrip()` keeps a prefix that does not end with whitespace and drops only whitespace |
| `Text.Trim` | tool_app.py:232 | `strip()` never lengthens the text, and its result is empty or neither starts nor ends with whitespace |
| `Text.TrimIsCore` | tool_app.py:232 | `strip()` returns the slice after the leading whitespace, with no whitespace at either end and only whitespace outside it |
| `Text.TrimEmptyIffBlank` | tool_app.py:232-233 | the stripped entry is empty exactly when the entry is all whitespace |
| `Text.TrimFixesCore` | tool_app.py:232 | text without surrounding whitespace is unchanged by `strip()` |
| `Text.TrimIdempotent` | tool_app.py:232 | stripping twice is stripping once |
| `Text.TrimIgnoresPadding` | tool_app.py:232 | whitespace added around a stripped text is removed again |
| `Entry.PlaceholderIsTrimmed` | tool_app.py:85 | the placeholder hint is 12 characters and is its own `strip()` |
| `Entry.Accepts` | tool_app.py:232-233 | the guard of `add_todo` holds exactly for entries that are not all whitespace and whose stripped text is not the placeholder |
| `Entry.PaddedPlaceholderRefused` | tool_app.py:232-233 | the placeholder surrounded by any whitespace is refused by `add_todo` |
| `Entry.AcceptsCore` | tool_app.py:232-234 | non-empty text without surrounding whitespace that is not the placeholder is accepted and added as it is |
| `Entry.Clear` | tool_app.py:151-153 | focus-in empties the field exactly when it shows the placeholder; afterwards it never shows the placeholder |
| `Entry.RestoreAsWritten` | tool_app.py:156-159 | focus-out as written: a blank entry becomes the placeholder followed by that entry's whitespace, any other entry is kept; the result is never blank |
| `Entry.Restore` | tool_app.py:156-159 | focus-out corrected: a blank entry becomes exactly the placeholder, any other is kept; the result is never blank |
| `Entry.FocusRoundTripAsWrittenKeepsPlaceholder` | tool_app.py:151-159 | as written, focus-out then focus-in on a whitespace-only entry leaves the placeholder plus that whitespace in the field, and a character typed after it is accepted as a todo starting with the placeholder |
| `Entry.RestoreAsWrittenIsRefused` | tool_app.py:156-159 | as written, the text shown after focus-out on a blank entry is still refused by `add_todo` |
| `Entry.FocusRoundTrip` | tool_app.py:151-159 | with the corrected focus-out, focus-out then focus-in empties every blank entry and keeps every entry that is not blank and is not the placeholder text itself (focus-in empties that one too); the shown placeholder is never accepted |
| `Todos.Appended` | tool_app.py:231-234 | an accepted entry adds exactly one item, `{stripped text, not completed}`, at the end and keeps all earlier items; a refused entry changes nothing |
| `Todos.AppendedItemIsClean` | tool_app.py:232-234 | an appended item is pending, non-empty, not the placeholder and has no surrounding whitespace |
| `Todos.AppendedAllInOrder` | tool_app.py:231-234 | n accepted entries added one after another give n new items, in entry order, after the unchanged old list |
| `Todos.Toggled` | tool_app.py:256-258 | in bounds, only that item's flag is negated, its text and all other items kept; out of bounds (negative or too large) the list is unchanged |
| `Todos.ToggleInvolution` | tool_app.py:256-258 | toggling the same index twice restores the list |
| `Todos.ToggleCommutes` | tool_app.py:256-258 | toggles of two indices can be applied in either order |
| `Todos.Deleted` | tool_app.py:211-213 | in bounds, the list loses one item, earlier items stay, later items move down by one; out of bounds it is unchanged |
| `Todos.DeleteInverse` | tool_app.py:211-213 | re-inserting the removed item at its index gives the original list; as multisets, the result plus the removed item is the original |
| `Todos.Line` | tool_app.py:244-254 | a line is two characters longer than the item's text and ends with the full text; its second character is a space, and its first is the check mark exactly for completed items |
| `Todos.Render` | tool_app.py:239-254 | one line per item, in list order, each the item's line |
| `Todos.LineRoundTrip` | tool_app.py:244-254 | a line starts with the check mark for completed items and the circle for pending ones, followed by the full text: the item can be read back from it |
| `Todos.RenderInjective` | tool_app.py:244-254 | two lists with the same display are equal |
| `Window.Increased` | tool_app.py:219-223 | zoom-in adds one point unless the size is at least 20, and keeps a size in [8, 20] in range |
| `Window.Decreased` | tool_app.py:225-229 | zoom-out removes one point unless the size is at most 8, and keeps a size in [8, 20] in range |
| `Window.Zoomed` | tool_app.py:172-174 | after any sequence of Control-plus, Control-equal and Control-minus presses, handled by `increase_font_size` and `decrease_font_size`, the size has moved by at most one point per key |
| `Window.ZoomedStaysInRange` | tool_app.py:40-42 | from any size in [8, 20], every sequence of zoom keys stays in [8, 20] |
| `Window.ZoomInSaturates` | tool_app.py:219-223 | n zoom-ins from a size in range give `min(size + n, 20)` |
| `Window.ZoomOutSaturates` | tool_app.py:225-229 | n zoom-outs from a size in range give `max(size - n, 8)` |
| `Window.Extent` | tool_app.py:142-147 | the new side is the maximum of the minimum and the start size plus the pointer displacement |
| `App.FloatingTodoApp.constructor` | tool_app.py:9-48 | start state: the list of an intact `todos.json`, or an empty list when the file is missing or damaged; placeholder in the entry, font size 11, 350 x 500 window, no drag, the file unchanged; the invariant holds |
| `App.FloatingTodoApp.Load` | tool_app.py:269-276 | the list of an intact file replaces the list and is shown; a missing or damaged file changes nothing |
| `App.FloatingTodoApp.Save` | tool_app.py:262-267 | a completed write makes the file hold the whole current list; a failed `open` leaves it as it was; a failure after `open` leaves it damaged, so the next start-up loads nothing |
| `App.FloatingTodoApp.UpdateTodoList` | tool_app.py:239-254 | the list box holds exactly `Render(todos)` |
| `App.FloatingTodoApp.AddTodo` | tool_app.py:231-237 | the list becomes `Appended(old list, entry)`; an accepted entry clears the field and is saved with the given write outcome; nothing else changes |
| `App.FloatingTodoApp.ToggleTodo` | tool_app.py:256-260 | the list becomes `Toggled(old list, index)`; saved only when the index is in bounds |
| `App.FloatingTodoApp.OnListClick` | tool_app.py:185-189 | any clicked row, -1 included, only reaches the bound-checked toggle |
| `App.FloatingTodoApp.DeleteSelectedTodo` | tool_app.py:206-217 | an empty selection changes nothing; otherwise the list becomes `Deleted(old list, first selected index)`, saved only when that index is in bounds |
| `App.FloatingTodoApp.IncreaseFontSize` | tool_app.py:219-223 | the font size becomes `Increased(old size)` and stays in [8, 20] |
| `App.FloatingTodoApp.DecreaseFontSize` | tool_app.py:225-229 | the font size becomes `Decreased(old size)` and stays in [8, 20] |
| `App.FloatingTodoApp.StartResize` | tool_app.py:136-140 | records the pointer position and the current window size |
| `App.FloatingTodoApp.DoResize` | tool_app.py:142-149 | each side becomes `Extent(start size, displacement, minimum)`; before any drag nothing changes; the window never drops below 300 x 400 |
| `App.FloatingTodoApp.ClearPlaceholder` | tool_app.py:151-154 | the entry becomes `Clear(old entry)` |
| `App.FloatingTodoApp.RestorePlaceholder` | tool_app.py:156-159 | the entry becomes `Restore(old entry)`: the corrected focus-out of the Findings below |
| `App.TypeAndAdd` | tool_app.py:231-237 | typing, into the empty field, a text without surrounding whitespace that is not the placeholder and pressing Enter appends it, pending and unchanged, clears the field and, after a completed write, leaves the new list in the file |

## Left out

- Widgets, colours and layout: the list box's per-line colours (`itemconfig`), the entry's grey or white text colour, fonts, frames, the scrollbar and its show/hide logic in `on_scroll_change` (floating-point scroll fractions with only visual effect) and icon loading in `set_custom_icon`.
- `show_context_menu` and the selection it sets: the popup menu is toolkit code; its effect reaches the model as the `selected` argument of `DeleteSelectedTodo`.
- The pixel-to-row mapping of `nearest(event.y)` and the `geometry` string: the model takes the row and the window size as integers.
- JSON encoding and file I/O in `save_todos` and `load_todos`: the file's content is modelled as a `FileState` holding the saved list itself, and any content that `open` or `json.load` rejects (including the empty or truncated file a failed write leaves) as `Damaged`. A file that parses but does not hold a list of `{text, completed}` records is not modelled; in the code such content replaces the list before the failing re-render, which a typed model cannot express.
- `setup_autostart` and `run`: registry writes and the tkinter main loop.
- App.FloatingTodoApp.RestorePlaceholder: models the corrected focus-out (replace a blank entry with the placeholder), not the code's insertion of the placeholder in front of the whitespace; the code's behaviour is `Entry.RestoreAsWritten`.
- App.FloatingTodoApp.DoResize: before any `start_resize` the code raises on the missing attributes inside the callback; the model treats that as a handler without effect.

## Findings

| source | as written | input that shows it | evidently intended | confidence | as-written member | corrected member |
|---|---|---|---|---|---|---|
| tool_app.py:156-159 | on focus-out, a whitespace-only entry gets the placeholder inserted at position 0, in front of the whitespace; focus-in then no longer recognises it as the placeholder, so it stays in the field, and text typed after a click behind it is appended to it | entry `"  "` (two spaces): focus out, click back into the field after the text, type `x`, press Enter; the list gains an item whose text is the placeholder followed by `"  x"` | a blank entry is replaced by the placeholder, so that focus-in empties it again | medium, not executed | `Entry.FocusRoundTripAsWrittenKeepsPlaceholder` | `Entry.FocusRoundTrip` |
