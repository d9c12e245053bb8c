/**
 * The content script of the browser extension (content.js): it receives the
 * background worker's messages, shows a "rewriting" badge while a request
 * is in flight, and puts the rewritten prompt in place of the selection of
 * the focused text field.
 *
 * The module-level `loadingBadge` and the focused element are the state; the
 * browser's 300 ms fade-out timer is an explicit method the environment
 * calls, because the badge is dropped only when that timer fires.
 */
module ContentScript {

  /** The tag names that take the splice path. */
  predicate IsTextControl(tagName: string) {
    tagName == "INPUT" || tagName == "TEXTAREA"
  }

  /** The value after replacing the selection [start, end) of text: the text
      before the selection, the replacement, and the text after it. */
  function Splice(text: string, start: nat, end: nat, replacement: string): (r: string)
    requires start <= end <= |text|
    ensures |r| == |text| - (end - start) + |replacement|
    ensures r[..start] == text[..start]
    ensures r[start..start + |replacement|] == replacement
    ensures r[start + |replacement|..] == text[end..]
  {
    text[..start] + replacement + text[end..]
  }

  /** Splicing the old selection back over the inserted text restores the
      original value. */
  lemma SpliceUndo(text: string, start: nat, end: nat, replacement: string)
    requires start <= end <= |text|
    ensures var r := Splice(text, start, end, replacement);
      Splice(r, start, start + |replacement|, text[start..end]) == text
  {
    var r := Splice(text, start, end, replacement);
    var u := Splice(r, start, start + |replacement|, text[start..end]);
    assert u == text[..start] + text[start..end] + text[end..];
    assert text == text[..start] + text[start..end] + text[end..];
  }

  /** An empty selection inserts the replacement at the caret; nothing of
      the old value is lost. */
  lemma SpliceInserts(text: string, caret: nat, replacement: string)
    requires caret <= |text|
    ensures Splice(text, caret, caret, replacement)[..caret] + Splice(text, caret, caret, replacement)[caret + |replacement|..] == text
  {
    var r := Splice(text, caret, caret, replacement);
    assert text == text[..caret] + text[caret..];
  }

  /** An empty replacement deletes the selection and keeps the rest. */
  lemma SpliceDeletes(text: string, start: nat, end: nat)
    requires start <= end <= |text|
    ensures Splice(text, start, end, "") == text[..start] + text[end..]
  {
    var r := Splice(text, start, end, "");
    assert r == r[..start] + r[start..];
  }

  /** A focused element: its tag, and for text controls the value and the
      selection. */
  class Element {
    var tagName: string
    var value: string
    var selectionStart: nat
    var selectionEnd: nat

    /** The browser keeps a text control's selection inside its value. */
    predicate Valid()
      reads this
    {
      IsTextControl(tagName) ==> selectionStart <= selectionEnd <= |value|
    }

    constructor (tagName: string, value: string, selectionStart: nat, selectionEnd: nat)
      requires IsTextControl(tagName) ==> selectionStart <= selectionEnd <= |value|
      ensures Valid()
      ensures this.tagName == tagName && this.value == value
      ensures this.selectionStart == selectionStart && this.selectionEnd == selectionEnd
    {
      this.tagName := tagName;
      this.value := value;
      this.selectionStart := selectionStart;
      this.selectionEnd := selectionEnd;
    }
  }

  /** A message from the background worker. */
  datatype Message = Message(action: string, text: string, message: string)

  /** The page the script runs in. */
  class Page {
    /** `loadingBadge !== null` */
    var badgeHeld: bool
    /** How many badge elements are attached to the document. */
    var badgesInDocument: nat
    /** Fade-out callbacks scheduled and not yet run. */
    var pendingRemovals: nat
    /** The messages shown with `alert`, oldest first. */
    var alerts: seq<string>
    /** `document.activeElement` */
    var active: Element

    /** The badge the script holds is the one badge in the document. */
    predicate Valid()
      reads this, active
    {
      && badgesInDocument == (if badgeHeld then 1 else 0)
      && active.Valid()
    }

    constructor (active: Element)
      requires active.Valid()
      ensures Valid()
      ensures !badgeHeld && badgesInDocument == 0 && pendingRemovals == 0 && alerts == []
      ensures this.active == active
    {
      badgeHeld := false;
      badgesInDocument := 0;
      pendingRemovals := 0;
      alerts := [];
      this.active := active;
    }

    /** Creates and attaches a badge unless one is already held. */
    method ShowLoadingIndicator()
      requires Valid()
      modifies this
      ensures Valid()
      ensures badgeHeld && badgesInDocument == 1
      ensures old(badgeHeld) ==> badgesInDocument == old(badgesInDocument)
      ensures pendingRemovals == old(pendingRemovals) && alerts == old(alerts) && active == old(active)
    {
      if badgeHeld {
        return;
      }
      badgeHeld := true;
      badgesInDocument := badgesInDocument + 1;
    }

    /** Starts the fade-out of a held badge; the badge stays held and
        attached until the timer fires. */
    method RemoveLoadingIndicator()
      requires Valid()
      modifies this
      ensures Valid()
      ensures pendingRemovals == old(pendingRemovals) + (if old(badgeHeld) then 1 else 0)
      ensures badgeHeld == old(badgeHeld) && badgesInDocument == old(badgesInDocument)
      ensures alerts == old(alerts) && active == old(active)
    {
      if badgeHeld {
        pendingRemovals := pendingRemovals + 1;
      }
    }

    /** The 300 ms fade-out timer fires: whatever badge is held now is
        detached and released. */
    method FadeOutElapsed()
      requires Valid() && pendingRemovals > 0
      modifies this
      ensures Valid()
      ensures !badgeHeld && badgesInDocument == 0
      ensures pendingRemovals == old(pendingRemovals) - 1
      ensures alerts == old(alerts) && active == old(active)
    {
      if badgeHeld {
        badgesInDocument := badgesInDocument - 1;
      }
      badgeHeld := false;
      pendingRemovals := pendingRemovals - 1;
    }

    /** Replaces the selection of a focused INPUT or TEXTAREA and collapses
        the caret after the inserted text. Other elements go to the
        contenteditable branch, which is not modelled: they are left as they
        are. */
    method ReplaceSelectedText(replacement: string) returns (spliced: bool)
      requires Valid()
      modifies active
      ensures Valid()
      ensures spliced <==> IsTextControl(old(active.tagName))
      ensures spliced ==>
        && active.value == Splice(old(active.value), old(active.selectionStart), old(active.selectionEnd), replacement)
        && active.selectionStart == active.selectionEnd == old(active.selectionStart) + |replacement|
        && active.tagName == old(active.tagName)
      ensures !spliced ==> unchanged(active)
    {
      spliced := IsTextControl(active.tagName);
      if spliced {
        var start, end, text := active.selectionStart, active.selectionEnd, active.value;
        active.value := Splice(text, start, end, replacement);
        active.selectionStart := start + |replacement|;
        active.selectionEnd := start + |replacement|;
      }
    }

    /** The `chrome.runtime.onMessage` listener. */
    method OnMessage(msg: Message)
      requires Valid()
      modifies this, active
      ensures Valid()
      ensures active == old(active)
      ensures msg.action == "loading" ==>
        && badgeHeld && badgesInDocument == 1
        && pendingRemovals == old(pendingRemovals) && alerts == old(alerts)
        && unchanged(active)
      ensures msg.action == "replace_text" ==>
        && badgeHeld == old(badgeHeld) && badgesInDocument == old(badgesInDocument)
        && pendingRemovals == old(pendingRemovals) + (if old(badgeHeld) then 1 else 0)
        && alerts == old(alerts)
        && (IsTextControl(old(active.tagName)) ==>
              && active.value == Splice(old(active.value), old(active.selectionStart), old(active.selectionEnd), msg.text)
              && active.selectionStart == active.selectionEnd == old(active.selectionStart) + |msg.text|
              && active.tagName == old(active.tagName))
        && (!IsTextControl(old(active.tagName)) ==> unchanged(active))
      ensures msg.action == "error" ==>
        && badgeHeld == old(badgeHeld) && badgesInDocument == old(badgesInDocument)
        && pendingRemovals == old(pendingRemovals) + (if old(badgeHeld) then 1 else 0)
        && alerts == old(alerts) + [msg.message]
        && unchanged(active)
      ensures msg.action !in {"loading", "replace_text", "error"} ==>
        unchanged(this) && unchanged(active)
    {
      if msg.action == "loading" {
        ShowLoadingIndicator();
      } else if msg.action == "replace_text" {
        RemoveLoadingIndicator();
        var _ := ReplaceSelectedText(msg.text);
      } else if msg.action == "error" {
        RemoveLoadingIndicator();
        alerts := alerts + [msg.message];
      }
    }
  }

  /** A "replace_text" on a focused INPUT puts the text in place of the
      selection and leaves the caret after it; the element stays an INPUT. */
  method ReplaceInInput() returns (value: string, caret: nat, tagName: string)
    ensures value == "hXYlo" && caret == 3 && tagName == "INPUT"
  {
    var field := new Element("INPUT", "hello", 1, 3);
    var page := new Page(field);
    page.OnMessage(Message("replace_text", "XY", ""));
    assert page.active.value == "h" + "XY" + "lo";
    value, caret, tagName := page.active.value, page.active.selectionStart, page.active.tagName;
  }

  /** A "loading" that arrives while the previous badge is fading out is
      swallowed: the held badge blocks it, then the timer drops that badge,
      and no badge is left on the page. */
  method LoadingDuringFadeOut() returns (badges: nat)
    ensures badges == 0
  {
    var field := new Element("TEXTAREA", "hello", 0, 5);
    var page := new Page(field);
    page.OnMessage(Message("loading", "", ""));
    page.OnMessage(Message("replace_text", "Hi there", ""));
    page.OnMessage(Message("loading", "", ""));
    assert page.pendingRemovals == 1;
    page.FadeOutElapsed();
    badges := page.badgesInDocument;
  }
}
