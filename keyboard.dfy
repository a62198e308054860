/** The token's Backspace override: deleting backwards into a token removes
    the whole token and puts the trigger character in its place. */
module Keyboard {
  import opened JsText
  import opened Attributes
  import opened Document

  /** `suggestion.char || ''`: the trigger when it is set and non-empty, else "". */
  function Sentinel(trigger: Option<Text>): (s: Text)
    ensures Truthy(trigger) ==> s == trigger.value
    ensures !Truthy(trigger) ==> s == []
  {
    if Truthy(trigger) then trigger.value else []
  }

  /** `suggestion.char` in the default options. */
  const DEFAULT_TRIGGER: Option<Text> := Some(Units("@"))

  /** The override takes the key exactly when the selection is collapsed and a
      token sits in the one-position span before the cursor. */
  predicate TokenBeforeCursor(doc: seq<Inline>, anchor: nat, head: nat)
  {
    anchor == head && 0 < anchor <= |doc| && doc[anchor - 1].Variable?
  }

  /** The Backspace shortcut. It walks the nodes overlapping
      `[anchor - 1, anchor)` as `nodesBetween` does, building the transaction
      `tr`; the transaction is then applied, and the key reported handled iff
      a token was found. */
  method Backspace(editor: Editor, trigger: Option<Text>) returns (handled: bool)
    requires editor.Valid()
    modifies editor
    ensures editor.Valid()
    ensures handled <==> TokenBeforeCursor(old(editor.doc), old(editor.anchor), old(editor.head))
    ensures handled ==> editor.doc == Replace(old(editor.doc), old(editor.anchor) - 1, old(editor.anchor), Chars(Sentinel(trigger)))
    ensures handled ==> editor.anchor == editor.head == old(editor.anchor) - 1 + |Sentinel(trigger)|
    ensures !handled ==> editor.doc == old(editor.doc) && editor.anchor == old(editor.anchor) && editor.head == old(editor.head)
  {
    var isMention := false;
    var empty, anchor := editor.SelectionEmpty(), editor.anchor;
    if !empty {
      return false;
    }
    var doc := editor.doc;
    var tr, trCursor := doc, anchor;
    // nodesBetween(anchor - 1, anchor): every node starting before `anchor`
    // whose end lies after `anchor - 1` is visited.
    var pos := 0;
    while pos < anchor
      invariant 0 <= pos <= anchor
      invariant isMention <==> 0 < anchor && anchor - 1 < pos && doc[anchor - 1].Variable?
      invariant !isMention ==> tr == doc && trCursor == anchor
      invariant isMention ==> 0 < anchor && tr == Replace(doc, anchor - 1, anchor, Chars(Sentinel(trigger)))
      invariant isMention ==> trCursor == anchor - 1 + |Sentinel(trigger)|
    {
      if pos + 1 > anchor - 1 && doc[pos].Variable? {
        isMention := true;
        tr := Replace(tr, pos, pos + 1, Chars(Sentinel(trigger)));
        trCursor := pos + |Sentinel(trigger)|;
      }
      pos := pos + 1;
    }
    editor.doc, editor.anchor, editor.head := tr, trCursor, trCursor;
    return isMention;
  }

  /** A handled Backspace removes exactly one token and no other content:
      the tokens drop by one and the sentinel adds no token. */
  lemma BackspaceRemovesOneToken(doc: seq<Inline>, anchor: nat, trigger: Option<Text>)
    requires TokenBeforeCursor(doc, anchor, anchor)
    ensures CountVariables(Replace(doc, anchor - 1, anchor, Chars(Sentinel(trigger))))
         == CountVariables(doc) - 1
    ensures |Replace(doc, anchor - 1, anchor, Chars(Sentinel(trigger)))|
         == |doc| - 1 + |Sentinel(trigger)|
  {
    ReplaceCount(doc, anchor - 1, anchor, Chars(Sentinel(trigger)));
    CharsHoldNoVariable(Sentinel(trigger));
    assert doc[anchor - 1..anchor] == [doc[anchor - 1]];
    assert [doc[anchor - 1]][1..] == [];
  }
}
