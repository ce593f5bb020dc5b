/** The text entry at the top of the window: its grey placeholder, the
    focus-in and focus-out handlers that hide and show it, and the guard that
    decides whether the entry's text becomes a todo item. */
module Entry {
  import opened Text

  /** The placeholder hint ("enter a todo item, press Enter to add"),
      twelve CJK characters including a full-width comma. */
  const Placeholder: string :=
    "\U{8F93}\U{5165}\U{5F85}\U{529E}\U{4E8B}\U{9879}\U{FF0C}\U{6309}\U{56DE}\U{8F66}\U{6DFB}\U{52A0}"

  /** The guard of `add_todo`: the stripped entry is neither empty nor the
      placeholder. */
  predicate Accepts(entry: string)
    ensures Accepts(entry) <==> !Blank(entry) && Trim(entry) != Placeholder
  {
    TrimEmptyIffBlank(entry);
    Trim(entry) != [] && Trim(entry) != Placeholder
  }

  /** The placeholder has no surrounding whitespace, so `strip()` keeps it. */
  lemma PlaceholderIsTrimmed()
    ensures |Placeholder| == 12
    ensures Trim(Placeholder) == Placeholder
  {
    TrimFixesCore(Placeholder);
  }

  /** The placeholder itself, padded with any whitespace, is refused by
      `add_todo`. */
  lemma PaddedPlaceholderRefused()
    ensures forall pre, post :: Blank(pre) && Blank(post) ==> !Accepts(pre + Placeholder + post)
  {
    forall pre, post | Blank(pre) && Blank(post)
      ensures !Accepts(pre + Placeholder + post)
    {
      PlaceholderIsTrimmed();
      TrimIgnoresPadding(pre, Placeholder, post);
    }
  }

  /** Non-empty text without surrounding whitespace that is not the
      placeholder. */
  predicate Clean(s: string)
  {
    s != [] && !IsSpace(s[0]) && !IsSpace(s[|s| - 1]) && s != Placeholder
  }

  /** Clean text is accepted and added as it is. */
  lemma AcceptsCore(s: string)
    requires Clean(s)
    ensures Accepts(s) && Trim(s) == s
  {
    TrimFixesCore(s);
  }

  /** `clear_placeholder` (focus in): an entry that shows exactly the
      placeholder is emptied, any other text is kept. */
  function Clear(entry: string): (r: string)
    ensures r != Placeholder
    ensures entry != Placeholder ==> r == entry
    ensures entry == Placeholder ==> r == []
  {
    if entry == Placeholder then [] else entry
  }

  /** `restore_placeholder` (focus out) as written: when the stripped entry is
      empty, the placeholder is inserted at position 0, in front of whatever
      whitespace the entry still holds. */
  function RestoreAsWritten(entry: string): (r: string)
    ensures Blank(entry) <==> r != entry
    ensures Blank(entry) ==> r == Placeholder + entry
    ensures Trim(r) != []
    ensures |r| >= |entry| && r[|r| - |entry|..] == entry
  {
    TrimEmptyIffBlank(entry);
    if Trim(entry) == [] then
      PlaceholderIsTrimmed();
      TrimIgnoresPadding([], Placeholder, entry);
      assert [] + Placeholder + entry == Placeholder + entry;
      Placeholder + entry
    else
      entry
  }

  /** `restore_placeholder` as evidently intended: a blank entry is replaced
      by the placeholder. This is the version the application model uses. */
  function Restore(entry: string): (r: string)
    ensures Blank(entry) ==> r == Placeholder
    ensures !Blank(entry) ==> r == entry
    ensures Trim(r) != []
  {
    TrimEmptyIffBlank(entry);
    PlaceholderIsTrimmed();
    if Trim(entry) == [] then Placeholder else entry
  }

  /** As written, focus out then focus in does not give back an empty field
      for an entry of whitespace only (two spaces, say): the placeholder stays
      in the field, and a character typed after it makes an entry that is
      accepted as a todo item starting with the placeholder. */
  lemma FocusRoundTripAsWrittenKeepsPlaceholder(pad: string, c: char)
    requires pad != [] && Blank(pad)
    requires !IsSpace(c)
    ensures Clear(RestoreAsWritten(pad)) == Placeholder + pad
    ensures Accepts(Clear(RestoreAsWritten(pad)) + [c])
    ensures Trim(Clear(RestoreAsWritten(pad)) + [c]) == Placeholder + pad + [c]
  {
    TrimEmptyIffBlank(pad);
    var shown := RestoreAsWritten(pad);
    assert shown == Placeholder + pad;
    assert |shown| > |Placeholder|;
    var typed := Clear(shown) + [c];
    assert typed == Placeholder + pad + [c];
    assert typed[0] == Placeholder[0];
    TrimFixesCore(typed);
    assert |typed| > |Placeholder|;
  }

  /** With the intended restore, leaving and re-entering the field empties
      every blank entry and keeps every other entry, except the placeholder
      text itself. The placeholder shown after focus out is never accepted. */
  lemma FocusRoundTrip(entry: string)
    ensures Blank(entry) ==> Clear(Restore(entry)) == [] && !Accepts(Restore(entry))
    ensures !Blank(entry) && entry != Placeholder ==> Clear(Restore(entry)) == entry
  {
    TrimEmptyIffBlank(entry);
    PlaceholderIsTrimmed();
  }

  /** Even as written, the text shown after focus out never reaches the list
      while the entry was blank: the padding is stripped and the placeholder
      is refused. */
  lemma RestoreAsWrittenIsRefused(entry: string)
    requires Blank(entry)
    ensures !Accepts(RestoreAsWritten(entry))
  {
    TrimEmptyIffBlank(entry);
    assert RestoreAsWritten(entry) == [] + Placeholder + entry;
    PlaceholderIsTrimmed();
    TrimIgnoresPadding([], Placeholder, entry);
  }
}
