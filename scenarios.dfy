/** Concrete runs of the widget: what the contracts above predict for small inputs. */
module Scenarios {
  import opened Text
  import opened Matching
  import opened Widget

  /** A candidate none of whose characters matches the query's first character,
      ignoring case, does not contain the query. */
  lemma FirstCharAbsent(item: string, query: string)
    requires |query| > 0
    requires forall j :: 0 <= j < |item| ==> Canonicalize(item[j]) != Canonicalize(query[0])
    ensures !ContainsIgnoringCase(item, query)
  {
    forall i | 0 <= i <= |item| - |query|
      ensures !MatchesAt(item, query, i)
    {
      assert Canonicalize(item[i + 0]) != Canonicalize(query[0]);
    }
  }

  /** A lower-case query finds the candidates that contain it, in list order. */
  lemma {:induction false} LowerCaseQuery()
    ensures Filter(["usa", "uk", "japan"], "u") == ["usa", "uk"]
    ensures |Suggestions(["usa", "uk", "japan"], 10, "u")| == 2
  {
    assert MatchesAt("usa", "u", 0);
    assert MatchesAt("uk", "u", 0);
    FirstCharAbsent("japan", "u");
    calc {
      Filter(["usa", "uk", "japan"], "u");
      { assert ["usa", "uk", "japan"][1..] == ["uk", "japan"]; }
      ["usa"] + Filter(["uk", "japan"], "u");
      { assert ["uk", "japan"][1..] == ["japan"]; }
      ["usa", "uk"] + Filter(["japan"], "u");
      { assert ["japan"][1..] == []; }
      ["usa", "uk"];
    }
  }

  /** Empty text shows nothing, whatever the candidates and the bound. */
  lemma EmptyTextShowsNothing(candidates: seq<string>, limit: nat)
    ensures Suggestions(candidates, limit, "") == []
  {
  }

  /** An upper-case query finds a candidate written in mixed case. */
  lemma {:induction false} UpperCaseQuery()
    ensures Filter(DefaultList, "JAPAN") == ["Japan"]
  {
    assert MatchesAt("Japan", "JAPAN", 0);
    FirstCharAbsent("USA", "JAPAN");
    FirstCharAbsent("UK", "JAPAN");
    FirstCharAbsent("China", "JAPAN");
    FirstCharAbsent("Ukraine", "JAPAN");
    FirstCharAbsent("Germany", "JAPAN");
    calc {
      Filter(DefaultList, "JAPAN");
      { assert DefaultList[1..] == ["UK", "Japan", "China", "Ukraine", "Germany"]; }
      Filter(["UK", "Japan", "China", "Ukraine", "Germany"], "JAPAN");
      { assert ["UK", "Japan", "China", "Ukraine", "Germany"][1..] == ["Japan", "China", "Ukraine", "Germany"]; }
      Filter(["Japan", "China", "Ukraine", "Germany"], "JAPAN");
      { assert ["Japan", "China", "Ukraine", "Germany"][1..] == ["China", "Ukraine", "Germany"]; }
      ["Japan"] + Filter(["China", "Ukraine", "Germany"], "JAPAN");
      { assert ["China", "Ukraine", "Germany"][1..] == ["Ukraine", "Germany"]; }
      ["Japan"] + Filter(["Ukraine", "Germany"], "JAPAN");
      { assert ["Ukraine", "Germany"][1..] == ["Germany"]; }
      ["Japan"] + Filter(["Germany"], "JAPAN");
      { assert ["Germany"][1..] == []; }
      ["Japan"];
    }
  }

  /** Typing, then picking a suggestion with the default configuration. */
  method SelectSuggestion()
  {
    var d := new DropDown(NonArray, NonNumber);
    assert d.autocomplete == DefaultList && d.limitTo == 10;
    var query: LiteralQuery := "JAPAN";
    UpperCaseQuery();
    assert Take(Filter(DefaultList, query), 10) == ["Japan"];
    d.HandleKeyPress(query);
    assert d.rendered == ["Japan"];
    d.HandleClick(true, "Japan");
    assert d.inputValue == "Japan" && d.rendered == [];
    d.HandleKeyPress("");
    assert d.rendered == [];
  }

  /** Text pasted into the input fires neither listened-for event, so the list
      still shows the suggestions for the text typed before. */
  method PasteKeepsStaleList()
  {
    var d := new DropDown(NonArray, NonNumber);
    var query: LiteralQuery := "JAPAN";
    UpperCaseQuery();
    assert Take(Filter(DefaultList, query), 10) == ["Japan"];
    d.HandleKeyPress(query);
    d.BrowserEdit("China");
    assert d.inputValue == "China" && d.rendered == ["Japan"];
  }
}
