/**
 * The message composer: inserting a picked emoji into the text selection, the
 * "has content" gate that enables sending, the Enter key, the emoji picker flag
 * and the hidden file input.
 */
module Composer {
  import opened Js

  /** The textarea as the DOM exposes it: its value and its selection ends (null when unknown). */
  datatype Textarea = Textarea(value: string, selectionStart: Option<nat>, selectionEnd: Option<nat>)

  /**
   * The text after picking `emoji`: spliced over the selection when the textarea
   * and both selection ends are known, appended to the input's text otherwise.
   */
  function InsertEmoji(text: string, emoji: string, area: Option<Textarea>): (r: string)
    ensures (area.None? || area.value.selectionStart.None? || area.value.selectionEnd.None?) ==> r == text + emoji
    ensures area.Some? && area.value.selectionStart.Some? && area.value.selectionEnd.Some? ==>
              var v, a, b := area.value.value, area.value.selectionStart.value, area.value.selectionEnd.value;
              a <= b <= |v| ==> r == v[..a] + emoji + v[b..]
  {
    if area.Some? && area.value.selectionStart.Some? && area.value.selectionEnd.Some? then
      var v := area.value.value;
      Substring(v, 0, area.value.selectionStart.value) + emoji + SubstringFrom(v, area.value.selectionEnd.value)
    else text + emoji
  }

  /**
   * Inserting over a selection keeps the text before and after it, replaces the
   * selected characters by the emoji, and so changes the length by |emoji| - (end - start).
   */
  lemma InsertEmojiSplice(text: string, emoji: string, v: string, a: nat, b: nat)
    requires a <= b <= |v|
    ensures var r := InsertEmoji(text, emoji, Some(Textarea(v, Some(a), Some(b))));
            && |r| == |v| - (b - a) + |emoji|
            && r[..a] == v[..a]
            && r[a..a + |emoji|] == emoji
            && r[a + |emoji|..] == v[b..]
  {
    var r := InsertEmoji(text, emoji, Some(Textarea(v, Some(a), Some(b))));
    assert r == v[..a] + emoji + v[b..];
    assert r[..a] == v[..a];
    assert r[a..a + |emoji|] == emoji;
    assert r[a + |emoji|..] == v[b..];
  }

  /** Text, attachments or a quoted message: the composer has something to send. */
  predicate HasContent(text: string, attachments: nat, quoted: bool) {
    |Trim(text)| > 0 || attachments > 0 || quoted
  }

  /**
   * There is content exactly when the text has a non-whitespace character, or a
   * file is attached, or a message is quoted; whitespace alone is not content.
   */
  lemma HasContentIff(text: string, attachments: nat, quoted: bool)
    ensures HasContent(text, attachments, quoted) <==>
              (exists i :: 0 <= i < |text| && !IsSpace(text[i])) || attachments > 0 || quoted
  {
    TrimEmptyIffAllSpace(text);
  }

  /** What a key press in the textarea does. */
  datatype KeyOutcome = KeyOutcome(preventDefault: bool, submit: bool)

  /** Enter without Shift is taken over and submits only when there is content; Shift+Enter is a newline. */
  function OnKeyDown(key: string, shift: bool, hasContent: bool): (o: KeyOutcome)
    ensures o.submit <==> key == "Enter" && !shift && hasContent
    ensures o.preventDefault <==> key == "Enter" && !shift
    ensures shift ==> !o.submit && !o.preventDefault
  {
    if key == "Enter" && !shift then KeyOutcome(true, hasContent) else KeyOutcome(false, false)
  }

  /** The composer's own state: the input's text (kept in sync through the change handler), the picker flag and the file input's value. */
  class ComposerState {
    var text: string
    var showEmojiPicker: bool
    var fileInputValue: string

    constructor (text0: string)
      ensures text == text0 && !showEmojiPicker && fileInputValue == ""
    {
      text, showEmojiPicker, fileInputValue := text0, false, "";
    }

    method ToggleEmojiPicker()
      modifies this
      ensures showEmojiPicker == !old(showEmojiPicker)
      ensures text == old(text) && fileInputValue == old(fileInputValue)
    {
      showEmojiPicker := !showEmojiPicker;
    }

    /** A mouse-down closes the picker only when both the picker and the send button exist and the press is outside both. */
    method MouseDown(pickerMounted: bool, insidePicker: bool, sendMounted: bool, insideSend: bool)
      modifies this
      ensures showEmojiPicker == (old(showEmojiPicker) && !(pickerMounted && !insidePicker && sendMounted && !insideSend))
      ensures text == old(text) && fileInputValue == old(fileInputValue)
    {
      if pickerMounted && !insidePicker && sendMounted && !insideSend {
        showEmojiPicker := false;
      }
    }

    method EmojiClick(emoji: string, area: Option<Textarea>)
      modifies this
      ensures text == InsertEmoji(old(text), emoji, area)
      ensures showEmojiPicker == old(showEmojiPicker) && fileInputValue == old(fileInputValue)
    {
      text := InsertEmoji(text, emoji, area);
    }

    /** Sending hands the form to the input's submit handler (the caller's submit) and always closes the picker. */
    method Send()
      modifies this
      ensures !showEmojiPicker
      ensures text == old(text) && fileInputValue == old(fileInputValue)
    {
      showEmojiPicker := false;
    }

    /** A key press: Enter without Shift sends when there is content. */
    method KeyDown(key: string, shift: bool, attachments: nat, quoted: bool) returns (submitted: bool)
      modifies this
      ensures submitted <==> key == "Enter" && !shift && HasContent(old(text), attachments, quoted)
      ensures showEmojiPicker == (old(showEmojiPicker) && !submitted)
      ensures text == old(text) && fileInputValue == old(fileInputValue)
    {
      var o := OnKeyDown(key, shift, HasContent(text, attachments, quoted));
      submitted := false;
      if o.submit {
        Send();
        submitted := true;
      }
    }

    /** Chosen files are uploaded only when there is at least one; the file input is cleared every time. */
    method FileSelect(files: Option<seq<string>>) returns (uploaded: Option<seq<string>>)
      modifies this
      ensures uploaded == (if files.Some? && |files.value| > 0 then files else None)
      ensures fileInputValue == ""
      ensures text == old(text) && showEmojiPicker == old(showEmojiPicker)
    {
      uploaded := None;
      if files.Some? && |files.value| > 0 {
        uploaded := files;
      }
      fileInputValue := "";
    }
  }
}
