# DropDown autocomplete widget, modelled in Dafny

`DropDown` is a text input with a live suggestion list under it. Every key-up
or click in the input clears the list. When the input is not empty, the widget
then filters its candidate list (`autocomplete`) for entries that contain the
typed text, ignoring case. It renders at most `limitTo` of them, in candidate
order, as `li` items. Clicking an item copies that item's text into the input,
and any click inside the list closes it. The constructor replaces an argument
that is not an array with a six-country default list. It replaces a limit that
is not a number, or is NaN, with 10.

The project has four modules:

- `Text` (text.dfy) defines case-insensitive literal containment. This is what
  `new RegExp(query, 'i').test(item)` computes when the query has no pattern
  syntax. `LiteralQuery` is the type of such queries.
- `Matching` (matching.dfy) holds `Filter`, the `slice(0, limitTo)` bound
  (`Take`) and `Suggestions`. `Suggestions` is the list a key-up renders. The
  module also holds the lemmas that say exactly which candidates the filter
  keeps, and in what order.
- `Widget` (widget.dfy) holds the constructor's argument normalisation and the
  class `DropDown`. The class has the four state fields (`autocomplete`,
  `limitTo`, `inputValue`, `rendered`) and the four handlers. `Valid()` is the
  class invariant: the list is either empty or equal to the suggestions for the
  text the last key-press handler saw. A ghost field `handledText` records that
  text. `BrowserEdit` models a change to the input that fires neither key-up
  nor click, such as a paste from the context menu, dropped text or autofill.
  No handler runs for such a change, so the list stays as it was.
- `Scenarios` (scenarios.dfy) holds concrete cases: a lower-case query, an
  upper-case query, empty text, a client method that types and then selects,
  and one that types and then pastes.

The file's header comment (dropDownComponent.js:3-9) describes `limitTo` as
the maximum number of suggestions and the list as an array of strings. The
code checks less than that:

- The limit is checked only with `typeof limitTo === 'number' && !isNaN(limitTo)`.
  So any number is kept, including 0, negative numbers and `Infinity`. The model
  keeps every `nat`, and its limit type cannot represent the other numbers (see
  the `Widget.NormaliseLimit` line under "Left out").
- The list is checked only with `Array.isArray`. Its elements are not checked
  to be strings.
- The `el` argument is ignored. The host is looked up by the fixed id
  `dropDownComponent`.

## Model

| member | source | states |
|---|---|---|
| `Text.Canonicalize` | dropDownComponent.js:84 | the `i` flag compares characters by their upper-case form: the result is never a lower-case ASCII letter, and is the character itself or its upper-case partner |
| `Text.ContainsIgnoresQueryCase` | dropDownComponent.js:83-84 | two queries that differ only in letter case match exactly the same candidates |
| `Text.EmptyQueryMatchesAll` | dropDownComponent.js:84 | the empty pattern is found in every candidate |
| `Text.ContainsIgnoringCase` | dropDownComponent.js:84-87 | `regex.test(item)` for a literal query with the `i` flag holds exactly when some stretch of the item, as long as the query, equals the query once both are upper-cased (ASCII letters only) |
| `Matching.Filter` | dropDownComponent.js:82-89 | the result is no longer than the candidate list, and each item in it is a candidate that contains the query, ignoring case |
| `Matching.FilterSelectsMatchingPositions` | dropDownComponent.js:86-88 | the result is the candidates at strictly increasing positions, and a position is selected exactly when its candidate matches: exactly the matches, each once, in original order |
| `Matching.FilterMembership` | dropDownComponent.js:86-88 | a string is in the result if and only if it is a candidate and contains the query |
| `Matching.FilterAppend` | dropDownComponent.js:86-88 | filtering the concatenation of two candidate lists gives the concatenation of their filtered lists |
| `Matching.FilterIdempotent` | dropDownComponent.js:86-88 | filtering the result again with the same query changes nothing |
| `Matching.FilterIgnoresQueryCase` | dropDownComponent.js:83-84 | the result does not depend on the letter case of the typed text |
| `Matching.FilterEmptyQueryKeepsAll` | dropDownComponent.js:84-88 | an empty query would keep every candidate, which is why the empty case must be skipped before filtering |
| `Matching.Take` | dropDownComponent.js:63-64 | `slice(0, n)` returns the first `min(n, length)` items, unchanged and in order |
| `Matching.Suggestions` | dropDownComponent.js:62-65 | for empty text nothing is shown. Otherwise the count is `min(limitTo, number of matches)`, the list is a prefix of the filtered candidates, and every item is a candidate containing the text |
| `Widget.NormaliseList` | dropDownComponent.js:16 | an array argument is kept as given, and any other value becomes the six-item default list |
| `Widget.NormaliseLimit` | dropDownComponent.js:17 | a number that is not NaN is kept, and NaN or a non-number becomes 10 |
| `Widget.DropDown.constructor` | dropDownComponent.js:11-21 | the configuration is the normalised arguments, the input is empty, the list is empty, and the invariant holds |
| `Widget.DropDown.ClearDropDown` | dropDownComponent.js:53-56 | afterwards the list is empty whatever it held before, and only the list changes, so a second call changes nothing |
| `Widget.DropDown.InsertMatches` | dropDownComponent.js:69-80 | the list afterwards is the old list followed by one item per match, in order |
| `Widget.DropDown.HandleKeyPress` | dropDownComponent.js:58-67 | the list is replaced, not appended to, whatever it held before. It becomes empty for empty text and otherwise the first `limitTo` matches of the text. The input holds the text, the candidates and the limit do not change, and the invariant is kept |
| `Widget.DropDown.BrowserEdit` | dropDownComponent.js:27-28 | only key-up and click on the input are listened for, so a change to the input's text that fires neither leaves the list and the configuration as they were |
| `Widget.DropDown.HandleClick` | dropDownComponent.js:44-51 | a click on an item sets the input to exactly that item's text, and any other click leaves the input alone. The list is empty afterwards. Picking an item that was shown puts a candidate into the input |
| `Scenarios.LowerCaseQuery` | dropDownComponent.js:82-89 | filtering `usa, uk, japan` for `u` gives `usa, uk`, and two suggestions are shown |
| `Scenarios.UpperCaseQuery` | dropDownComponent.js:82-89 | filtering the default list for `JAPAN` gives exactly `Japan` |
| `Scenarios.EmptyTextShowsNothing` | dropDownComponent.js:62 | empty text shows no suggestions, whatever the candidates and the limit |

## Left out

- `Matching.Filter`: covers only queries with no ECMAScript pattern characters (`^ $ \ . * + ? ( ) [ ] { } |`), enforced by the type `LiteralQuery`. The source passes the typed text to `new RegExp` unescaped. So `.` matches every candidate that contains a character other than a line terminator, and an unbalanced `(` makes `new RegExp` throw after the list has been cleared. Neither behaviour is modelled.
- `Widget.DropDown.HandleKeyPress`: takes a `LiteralQuery` for the same reason.
- `Text.Canonicalize`: folds only ASCII letters. JavaScript's upper-casing of other characters is not modelled.
- `Widget.NormaliseLimit`: the limit is a `nat`. Negative, fractional and infinite numbers, which `slice` would treat specially, are not modelled.
- `Widget.DropDown.constructor`: the candidate array is held by reference (dropDownComponent.js:16 makes no copy). Changes the caller makes to that array later are not modelled. In the program, the next key-up filters the changed array. A candidate removed while it is shown can still be clicked, which puts a non-candidate into the input, so the last promise of `HandleClick` holds only while the array is left alone.
- `Widget.NormaliseList`: an array is assumed to hold strings. The source keeps any array, whatever its elements.
- Creating the `input` and `ul` elements and attaching them to the host (`createElements`) is DOM I/O.
- Registering the event listeners (`registerEvents`) is DOM I/O. The events are modelled as direct calls to the handlers.
- The host lookup `document.getElementById('dropDownComponent')`, which ignores the `el` argument, is a DOM call.
- `Widget.DropDown.InsertMatches`: the document fragment that batches the insertions is not modelled. Items are appended to the list one at a time, so the model does not capture that the intermediate states are never visible.
- The difference between `innerText` and `textContent` is not modelled. An item's text is its literal string.
- The browser's own update of the input's value on a key press is not modelled separately. `HandleKeyPress` takes the new text as a parameter and records it in `inputValue`. Changes that fire no listened-for event are modelled by `BrowserEdit`.
- The example usage at the end of the file creates a widget with the defaults. `Scenarios.SelectSuggestion` plays a similar part.
