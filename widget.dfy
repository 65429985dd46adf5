/** The `DropDown` instance: its configuration, the text of its input and the items
    of its suggestion list, with the event handlers that change them. */
module Widget {
  import opened Text
  import opened Matching

  /** The candidates used when the constructor is not given an array. */
  const DefaultList: seq<string> := ["USA", "UK", "Japan", "China", "Ukraine", "Germany"]

  /** The bound used when the constructor is not given a usable number. */
  const DefaultLimit: nat := 10

  /** The constructor's `autocompleteList` argument: an array, or any other value
      (a string, `undefined`, an object, ...). */
  datatype ListArg = ArrayArg(items: seq<string>) | NonArray

  /** The constructor's `limitTo` argument: a number, the number NaN, or a value of
      another type (including `undefined` when it is omitted). */
  datatype LimitArg = Number(value: nat) | NaN | NonNumber

  /** `Array.isArray(autocompleteList) ? autocompleteList : defaultList`. */
  function NormaliseList(arg: ListArg): (r: seq<string>)
    ensures arg.ArrayArg? ==> r == arg.items
    ensures arg.NonArray? ==> r == DefaultList && |r| == 6
  {
    match arg
    case ArrayArg(items) => items
    case NonArray => DefaultList
  }

  /** `typeof limitTo === 'number' && !isNaN(limitTo) ? limitTo : defaultLimit`. */
  function NormaliseLimit(arg: LimitArg): (r: nat)
    ensures arg.Number? ==> r == arg.value
    ensures arg.NaN? || arg.NonNumber? ==> r == 10
  {
    if arg.Number? then arg.value else DefaultLimit
  }

  class DropDown {
    /** The candidate list, fixed by the constructor. */
    var autocomplete: seq<string>
    /** The most suggestions shown at once, fixed by the constructor. */
    var limitTo: nat
    /** `this.input.value`. */
    var inputValue: string
    /** The texts of the `li` children of `this.dropDown`, in document order. */
    var rendered: seq<string>
    /** The input text that `handleKeyPress` last read. The input can change
        afterwards without either handler running (pasting from the context
        menu, dropping text, autofill), so this can differ from `inputValue`. */
    ghost var handledText: string

    /** The suggestion list is either closed or shows exactly the suggestions for
        the text the last key-press handler saw. */
    ghost predicate Valid()
      reads this
    {
      rendered == [] ||
      (IsLiteralPattern(handledText) && rendered == Suggestions(autocomplete, limitTo, handledText))
    }

    /** `new DropDown(el, autocompleteList, limitTo)`: a fresh, empty input above an
        empty list. */
    constructor (list: ListArg, limit: LimitArg)
      ensures autocomplete == NormaliseList(list) && limitTo == NormaliseLimit(limit)
      ensures inputValue == "" && rendered == []
      ensures Valid()
    {
      autocomplete := NormaliseList(list);
      limitTo := NormaliseLimit(limit);
      inputValue := "";
      rendered := [];
      handledText := "";
    }

    /** `clearDropDown`: removes every suggestion; touches nothing else, so a
        second call has no further effect. */
    method ClearDropDown()
      modifies this`rendered
      ensures rendered == []
      ensures Valid()
    {
      rendered := [];
    }

    /** `insertMatches`: appends one item per match, in order, after the items
        already in the list. */
    method InsertMatches(matches: seq<string>)
      modifies this`rendered
      ensures rendered == old(rendered) + matches
    {
      var i := 0;
      while i < |matches|
        invariant 0 <= i <= |matches|
        invariant rendered == old(rendered) + matches[..i]
      {
        rendered := rendered + [matches[i]];
        i := i + 1;
      }
      assert matches[..i] == matches;
    }

    /** `handleKeyPress`, run on key-up and on clicks in the input. `text` is the
        input's value, which the browser has already updated when the handler
        runs; the list is replaced by the first `limitTo` matches, or emptied when
        the text is empty. */
    method HandleKeyPress(text: LiteralQuery)
      modifies this`rendered, this`inputValue, this`handledText
      ensures inputValue == text && handledText == text
      ensures rendered == Suggestions(autocomplete, limitTo, text)
      ensures |text| == 0 ==> rendered == []
      ensures |text| > 0 ==> rendered == Take(Filter(autocomplete, text), limitTo)
      ensures Valid()
    {
      inputValue, handledText := text, text;
      ClearDropDown();
      if |text| > 0 {
        var matches := Take(Filter(autocomplete, text), limitTo);
        InsertMatches(matches);
      }
    }

    /** A change to the input's text that fires neither key-up nor click on the
        input: no handler runs, so the suggestion list stays as it was. */
    method BrowserEdit(text: string)
      requires Valid()
      modifies this`inputValue
      ensures inputValue == text
      ensures Valid()
    {
      inputValue := text;
    }

    /** `handleClick`, run on clicks inside the list: a click on an item copies
        its text into the input; any click closes the list. */
    method HandleClick(targetIsListItem: bool, targetText: string)
      requires Valid()
      modifies this`rendered, this`inputValue
      ensures inputValue == if targetIsListItem then targetText else old(inputValue)
      ensures rendered == []
      ensures targetIsListItem && targetText in old(rendered) ==> inputValue in autocomplete
      ensures Valid()
    {
      if targetIsListItem {
        inputValue := targetText;
      }
      ClearDropDown();
    }
  }
}
