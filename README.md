# Variable token for a rich-text editor, in Dafny

This project models `src/variable.ts`, a node extension for the tiptap/ProseMirror editor. The extension defines an inline, atomic "variable" token: a bound identifier (`id`) with a display `label`. Users insert it through an `@`-triggered suggestion list, and it renders as a coloured `span`. The editor engine is reduced to a flat run of inline content. Each item is a text character or a token, and each takes one position. JavaScript strings are sequences of UTF-16 code units.

Modules, one per concern of the source file:

- `JsText` (`jstext.dfy`): code units, `startsWith`, ASCII `toLowerCase`, truthiness, and `${…}` of a possibly-null value.
- `Palette` (`palette.dfy`): `COLORS` and `generatePalette`, a loop that sums code units. It is proved against the recursive sum `CodeUnitSum`.
- `Attributes` (`attributes.dfy`): the `id`/`label` codec to `data-id`/`data-label` and the `span[data-type="variable"]` parse rule. The `label` attribute is the field `labelText`, since `label` is a Dafny keyword.
- `Document` (`document.dfy`): inline content, the replace-range step, and the `Editor` class, which holds the document and the selection (anchor, head).
- `Suggestion` (`suggestion.dfy`): the default `items` provider, and the `command` callback as a method. It updates the `SuggestionRange` object and the editor in place.
- `Keyboard` (`keyboard.dfy`): the Backspace override as a method. Its loop walks the nodes around the cursor the way `nodesBetween` does and builds the transaction.
- `Rendering` (`rendering.dfy`): the options and their defaults, and the `renderText`/`renderHTML` delegation. It also has the default HTML renderer, a method that writes `class` and `style` into the shared `HTMLAttributes` bag.

Renderers are opaque function values. A `console.warn` becomes a warning count in the result. A null `id` makes `generatePalette` throw inside the default HTML renderer. The model shows this as the `Threw` completion.

## Model

| member | source | states |
|---|---|---|
| `Palette.GeneratePalette` | src/variable.ts:26-32 | the returned colour is `COLORS[(sum of the id's code units) mod 7]`, so it is always one of the seven table entries |
| `Palette.ColorIndex` | src/variable.ts:31 | the index is below 7 and congruent to the code-unit sum modulo 7 |
| `Palette.EmptyIdColor` | src/variable.ts:17-31 | the empty id selects index 0, colour `ab7df6` |
| `Palette.CodeUnitSumPermutation` | src/variable.ts:27-30 | the accumulated sum depends only on the multiset of code units, not their order |
| `Palette.ColorPermutationInvariant` | src/variable.ts:26-32 | any rearrangement of an id's code units gets the same colour |
| `Attributes.RenderId` | src/variable.ts:116-124 | `data-id` is emitted exactly when `id` is truthy (not null, not ""), with `id` as its value; otherwise the bag is empty |
| `Attributes.RenderLabel` | src/variable.ts:130-138 | `data-label` is emitted exactly when `label` is truthy, with `label` as its value; otherwise the bag is empty |
| `Attributes.RenderAttributes` | src/variable.ts:111-141 | the rendered bag holds only `data-id`/`data-label`, each present exactly when its attribute is truthy |
| `Attributes.ParseId` | src/variable.ts:115 | `id` is the `data-id` value when the attribute is present, null when it is absent |
| `Attributes.ParseLabel` | src/variable.ts:129 | `label` is the `data-label` value when present, null when absent |
| `Attributes.RoundTrip` | src/variable.ts:113-138 | parse after render gives back each truthy value exactly and null for null or ""; with both values non-empty it is the identity, and null attributes come back as the defaults |
| `Attributes.ParseThenRender` | src/variable.ts:113-138 | render after parse keeps exactly the non-empty `data-id`/`data-label` entries of the element |
| `Attributes.ParseElement` | src/variable.ts:143-149 | an element is claimed iff it is a `span` whose `data-type` is `variable`; a claimed one yields its `data-id`/`data-label` values |
| `Suggestion.FilterByLabel` | src/variable.ts:96 | the filter result is an order-preserving sublist of the items, every item in it matches (its lower-cased label starts with the lower-cased query), and every matching item occurs in it |
| `Suggestion.FilterCounts` | src/variable.ts:96 | each matching item occurs in the result exactly as often as in the input, and a non-matching item not at all |
| `Suggestion.DefaultItems` | src/variable.ts:90-97 | the default provider returns at most 5 items, an order-preserving sublist of the 4 built-in items, all matching the query case-insensitively, and every matching built-in item |
| `Suggestion.DefaultItemsEmptyQuery` | src/variable.ts:90-96 | the empty query returns all four built-in items in their order |
| `Suggestion.DefaultItemsQueryE` | src/variable.ts:91-96 | the queries "e" and "E" both return only the "E-mail" item |
| `Suggestion.Command` | src/variable.ts:58-75 | `range.to` grows by exactly 1 iff the node after the selection is text starting with a space; `[from, to)` of the document is then replaced by one token with the given attributes, everything else is kept, and the cursor is placed right after the token |
| `Document.Replace` | src/variable.ts:69-74 | a replace of `[from, to)` keeps the content before `from` and after `to` and puts the inserted content between them |
| `Suggestion.CommitCount` | src/variable.ts:66-75 | a commit adds exactly one token (at `from`) and removes only the tokens the range covered |
| `Keyboard.Sentinel` | src/variable.ts:206 | the replacement text is the trigger character when set and non-empty, "" otherwise |
| `Keyboard.Backspace` | src/variable.ts:192-215 | the key is handled iff the selection is collapsed and a token lies in `[anchor-1, anchor)`; then exactly that span becomes the sentinel text and the cursor follows it; otherwise the document and the selection are unchanged |
| `Keyboard.BackspaceRemovesOneToken` | src/variable.ts:203-212 | a handled Backspace removes exactly one token and adds none, and shifts the length by the sentinel's length minus one |
| `Rendering.DefaultRenderText` | src/variable.ts:42-44 | the default plain text of a token is its id verbatim, and the text `null` when the id is null |
| `Rendering.RenderText` | src/variable.ts:178-190 | with `renderLabel` set, the text is its output and one warning is emitted; otherwise the configured `renderText` output with no warning |
| `Rendering.SpanAttributes` | src/variable.ts:156 | the wrapping `span`'s attributes are exactly `data-type`, the options' bag and the truthy data attributes; `data-type` is `variable` unless the bag overrides it; the token's truthy `id`/`label` override the bag's `data-id`/`data-label`, and every other bag entry (a data entry included when the token's value is falsy) is carried over unchanged; when the bag holds neither `data-id` nor `data-label`, the data attributes parse back to the token's truthy attributes |
| `Rendering.WrapString` | src/variable.ts:168-175 | a string from the renderer is wrapped in the marked `span`; an element spec is returned unchanged |
| `Rendering.DefaultRendererBag` | src/variable.ts:46-47 | after the default renderer, the shared bag has exactly its old keys plus `class` and, for a set id, `style`; `class` is `variable`, `style` is the palette colour for a set id and keeps its old value for a null id (the throw comes first), and every other entry is unchanged |
| `Rendering.RenderHtmlSpec` | src/variable.ts:151-176 | one call emits one warning iff `renderLabel` is set, always yields an element, throws only for the default renderer on a null id, and leaves the shared bag alone unless the default renderer runs; `renderLabel`'s text is wrapped in the marked `span`; a custom renderer's string is wrapped in that `span` and its element returned as is; the default renderer leaves the bag as `DefaultRendererBag` says and, for a set id, its `span` over that bag and the label is returned unchanged |
| `Rendering.VariableOptions.RenderHtml` | src/variable.ts:151-176 | the result, the warning count and the new `HTMLAttributes` are those `RenderHtmlSpec` gives for the old bag, so every clause of `RenderHtmlSpec` holds of the method |
| `Rendering.VariableOptions.DefaultRenderHtml` | src/variable.ts:45-54 | the shared bag gets `class: variable` and, for a set id, the palette colour style; a set id yields a `span` with that bag and the label; a null id throws |
| `Rendering.VariableOptions.Defaults` | src/variable.ts:37-57 | the default options: `HTMLAttributes` `{class: variable}`, no `renderLabel`, and the default renderers |
| `Rendering.LegacyRendererBothPaths` | src/variable.ts:151-190 | with `renderLabel` set, plain text and HTML both show its output, each call warns once, and the shared bag is untouched |
| `Rendering.DefaultTextIsId` | src/variable.ts:42-44 | with the default options, `renderText` returns the id verbatim, or `null` for a null id, without warning |
| `Rendering.StringRendererRoundTrip` | src/variable.ts:163-174 | when the options' bag holds no `data-type`, `data-id` or `data-label`, the markup built from a renderer that returns a string is claimed by the parse rule and gives back the truthy attributes |
| `Rendering.DefaultHtmlNotReparsed` | src/variable.ts:163-175 | as written, for a set id, the default renderer's output is not claimed by the parse rule when the options' bag holds no `data-type` |
| `Rendering.DefaultHtmlDropsToken` | src/variable.ts:45-54 | with the default options, the token `{id: "a", label: "b"}` renders without `data-id` and is not recognised when parsed back |
| `Rendering.CorrectedDefaultHtml` | src/variable.ts:45-54 | the corrected default renderer throws exactly on a null id and otherwise yields a `span` |
| `Rendering.CorrectedDefaultHtmlRoundTrip` | src/variable.ts:143-149 | for a set id, and when the options' bag holds no `data-type`, `data-id` or `data-label`, the corrected default renderer's output is claimed by the parse rule and gives back the token (exactly, when id and label are non-empty) |

## Left out

- The suggestion plugin (src/variable.ts:217-224) is left out. It handles trigger detection, the popup, and the session's open/filter/select/dismiss cycle. It is an external library; only the callbacks it calls (`items`, `command`) are modelled.
- `allow` (src/variable.ts:79-85) is left out. It asks the schema's content-match machinery whether the parent node admits the token, and that machinery is not part of this model.
- `focus()` and `window.getSelection()?.collapseToEnd()` (src/variable.ts:66-77) are left out because they are UI and DOM state. The cursor after a commit is set after the inserted token, as the host's insert-at-range does.
- `PluginKey` (src/variable.ts:15, 57) and the node's schema flags (group, inline, selectable, atom; src/variable.ts:103-109) are declarations with no behaviour of their own. The flat model gives each token one position.
- `mergeAttributes` is modelled as a union in which the later bag wins. Its joining of `class` and `style` values is not modelled.
- `console.warn` is output. It is modelled as a warning count.
- `toLowerCase` maps only the ASCII letters. Full Unicode case mapping is not modelled.
- `nodesBetween` over a real document tree is not modelled. The document is one flat inline run, text is split into one-position characters, and block boundaries and ancestor visits are absent.
- Renderers receive the node's attributes only, not the `{options, node}` pair. A Dafny datatype cannot hold functions that take that datatype.
- Attribute values are strings or null; other JSON values are not modelled.
- A DOM output spec's content is text; nested child specs are not modelled.
- Stored marks that a transaction would put on the inserted sentinel text are not modelled.
- The sum in `generatePalette` is unbounded. The loss of precision of JavaScript numbers past 2^53 is not modelled.
- Keyboard.Backspace: the trigger character is a parameter (the options' `suggestion.char`, whose default `@` is `Keyboard.DEFAULT_TRIGGER`), not read from the options object.
- Palette.GeneratePalette: each `COLORS` entry is a one-element array (`["ab7df6"]`, src/variable.ts:17-25), so the source returns an array. The model returns its hex string, and that is what the array becomes when the template at src/variable.ts:47 turns it into a string.
- Rendering.VariableOptions.DefaultRenderHtml: `Object.assign` returns its target, so the returned spec holds the options' own `HTMLAttributes` object. A later render's `style` write then shows up in specs returned earlier. The model returns a copy of the bag, so this aliasing is not captured.
- Suggestion.Command: requires that the range, once widened, lie inside the document. The engine always calls `command` with the cursor at the end of the range, so this holds; out-of-range positions would make the host throw, which is not modelled.

## Findings

| source | as written | input that shows it | evidently intended | confidence | as-written member | corrected member |
|---|---|---|---|---|---|---|
| src/variable.ts:45-54, 163-175 | The default `renderHTML` returns an element spec built from the shared `HTMLAttributes` only. `renderHTML` returns that spec unchanged, so the markup has no `data-type`, `data-id` or `data-label`. | Default options and a token `{id: "a", label: "b"}`: the output is `span` with `class` and `style` only. The parse rule `span[data-type="variable"]` does not claim it, so the token is lost on re-parse. | The default markup carries the type marker and the data attributes, so that a rendered token parses back to the same token. | medium, not executed | `Rendering.DefaultHtmlDropsToken` | `Rendering.CorrectedDefaultHtml`, `Rendering.CorrectedDefaultHtmlRoundTrip` |
