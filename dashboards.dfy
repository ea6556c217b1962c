/** The static dashboard definitions (app.py, lines 193-203) and the
    selection widgets' defaults and cap (lines 253-311), with what they imply
    for the charts. */
module Dashboards {
  import opened Wrappers
  import opened Indicators
  import opened Seqs
  import opened Chart

  /** `max_selections` of every indicator multiselect. */
  const MaxSelections: nat := 3

  const KonjunkturOptions: seq<string> :=
    ["Umsatz", "Auslandsumsatz", "Auslandsumsatz mit der Eurozone",
     "Auslandsumsatz mit dem sonstigen Ausland", "Index_Ertrag",
     "Index_Exporte", "Index_Umsatz", "Index_Verkaufspreise (Branchenprodukte)",
     "Index_Wirtschaftslage"]

  const ArbeitsmarktOptions: seq<string> :=
    ["Betriebe", "Beschäftigte", "Index_Beschäftigtenzahl", "Index_Wirtschaftslage"]

  const RohstoffeOptions: seq<string> :=
    ["Index_Rohstoffverfügbarkeit", "Index_Preisentwicklung Energierohstoffe",
     "Index_Preisentwicklung Kohle", "Index_Preisentwicklung Rohöl", "Index_Preisentwicklung Erdgas",
     "Index_Ertrag", "Index_Verkaufspreise (Branchenprodukte)"]

  const KonjunkturDefault: seq<string> := ["Umsatz", "Auslandsumsatz", "Index_Exporte"]
  const ArbeitsmarktDefault: seq<string> := ["Beschäftigte", "Index_Beschäftigtenzahl", "Index_Wirtschaftslage"]
  const RohstoffeDefault: seq<string> :=
    ["Index_Preisentwicklung Energierohstoffe", "Index_Ertrag", "Index_Rohstoffverfügbarkeit"]

  /** A selection the multiselect widget can produce: options only, no
      more than the cap. */
  predicate Selectable(selected: seq<string>, options: seq<string>)
  {
    |selected| <= MaxSelections && forall i :: 0 <= i < |selected| ==> selected[i] in options
  }

  /** The widget cap is exactly what the three-colour palette can serve, so
      `colors[i]` never goes out of range; the defaults are selectable. */
  lemma CapFitsPalette()
    ensures MaxSelections == |Palette|
    ensures Selectable(KonjunkturDefault, KonjunkturOptions)
    ensures Selectable(ArbeitsmarktDefault, ArbeitsmarktOptions)
    ensures Selectable(RohstoffeDefault, RohstoffeOptions)
  {
  }

  /** Every Rohstoffe option is an index indicator. */
  lemma RohstoffeOptionsAreIndices()
    ensures forall i :: 0 <= i < |RohstoffeOptions| ==> IsIndex(RohstoffeOptions[i])
  {
    assert "Index_Rohstoffverfügbarkeit"[..|Marker|] == Marker;
    PrefixIsIndex("Index_Rohstoffverfügbarkeit");
    assert "Index_Preisentwicklung Energierohstoffe"[..|Marker|] == Marker;
    PrefixIsIndex("Index_Preisentwicklung Energierohstoffe");
    assert "Index_Preisentwicklung Kohle"[..|Marker|] == Marker;
    PrefixIsIndex("Index_Preisentwicklung Kohle");
    assert "Index_Preisentwicklung Rohöl"[..|Marker|] == Marker;
    PrefixIsIndex("Index_Preisentwicklung Rohöl");
    assert "Index_Preisentwicklung Erdgas"[..|Marker|] == Marker;
    PrefixIsIndex("Index_Preisentwicklung Erdgas");
    assert "Index_Ertrag"[..|Marker|] == Marker;
    PrefixIsIndex("Index_Ertrag");
    assert "Index_Verkaufspreise (Branchenprodukte)"[..|Marker|] == Marker;
    PrefixIsIndex("Index_Verkaufspreise (Branchenprodukte)");
  }

  /** Any Rohstoffe selection has only index indicators, so its chart has
      no left-axis title and, the dashboard having no secondary axis, every
      trace refers to 'y2' while no `yaxis2` is laid out. */
  lemma RohstoffeChartHasNoAxisTitles(selected: seq<string>)
    requires Selectable(selected, RohstoffeOptions)
    ensures Levels(selected) == [] && Indices(selected) == selected
    ensures LayoutFor("Rohstoffe", Levels(selected), Indices(selected)).leftTitle == None
    ensures LayoutFor("Rohstoffe", Levels(selected), Indices(selected)).secondary == None
  {
    RohstoffeOptionsAreIndices();
    assert forall i :: 0 <= i < |selected| ==> IsIndex(selected[i]);
    Seqs.FilterNone(selected, IsLevel);
    Seqs.FilterAll(selected, IsIndex);
    RohstoffeHasNoSecondaryAxis(selected);
  }

  /** How the Konjunktur default's entries are classified. */
  lemma KonjunkturDefaultClasses()
    ensures IsLevel(KonjunkturDefault[0]) && IsLevel(KonjunkturDefault[1]) && IsIndex(KonjunkturDefault[2])
  {
    NoCapitalIIsLevel("Umsatz");
    NoCapitalIIsLevel("Auslandsumsatz");
    assert "Index_Exporte"[..|Marker|] == Marker;
    PrefixIsIndex("Index_Exporte");
  }

  /** The Konjunktur default splits into two level indicators and one
      index indicator. */
  lemma KonjunkturDefaultPartition()
    ensures Levels(KonjunkturDefault) == ["Umsatz", "Auslandsumsatz"]
    ensures Indices(KonjunkturDefault) == ["Index_Exporte"]
  {
    KonjunkturDefaultClasses();
    SplitThree(KonjunkturDefault);
  }

  /** The Konjunktur default chart has a titled left axis and a titled
      right axis overlaying it. */
  lemma KonjunkturDefaultChart()
    ensures LayoutFor("Konjunktur", Levels(KonjunkturDefault), Indices(KonjunkturDefault))
            == Layout(ChartTitle("Konjunktur"), XAxisTitle, Some(LeftAxisTitle),
                      Some(SecondaryAxis(Some(RightAxisTitle), "y", "right")))
  {
    KonjunkturDefaultPartition();
  }

  /** How the Arbeitsmarkt default's entries are classified. */
  lemma ArbeitsmarktDefaultClasses()
    ensures IsLevel(ArbeitsmarktDefault[0]) && IsIndex(ArbeitsmarktDefault[1]) && IsIndex(ArbeitsmarktDefault[2])
  {
    NoCapitalIIsLevel("Beschäftigte");
    assert "Index_Beschäftigtenzahl"[..|Marker|] == Marker;
    PrefixIsIndex("Index_Beschäftigtenzahl");
    assert "Index_Wirtschaftslage"[..|Marker|] == Marker;
    PrefixIsIndex("Index_Wirtschaftslage");
  }

  /** The Arbeitsmarkt default: one level indicator, two index indicators. */
  lemma ArbeitsmarktDefaultPartition()
    ensures Levels(ArbeitsmarktDefault) == ["Beschäftigte"]
    ensures Indices(ArbeitsmarktDefault) == ["Index_Beschäftigtenzahl", "Index_Wirtschaftslage"]
  {
    ArbeitsmarktDefaultClasses();
    SplitThree(ArbeitsmarktDefault);
  }

  /** The Arbeitsmarkt default chart has both axes titled. */
  lemma ArbeitsmarktDefaultChart()
    ensures LayoutFor("Arbeitsmarkt", Levels(ArbeitsmarktDefault), Indices(ArbeitsmarktDefault))
            == Layout(ChartTitle("Arbeitsmarkt"), XAxisTitle, Some(LeftAxisTitle),
                      Some(SecondaryAxis(Some(RightAxisTitle), "y", "right")))
  {
    ArbeitsmarktDefaultPartition();
  }

  /** The partition of a three-element selection, element by element. */
  lemma SplitThree(s: seq<string>)
    requires |s| == 3
    ensures Levels(s) == (if IsLevel(s[0]) then [s[0]] else []) + (if IsLevel(s[1]) then [s[1]] else [])
                         + (if IsLevel(s[2]) then [s[2]] else [])
    ensures Indices(s) == (if IsIndex(s[0]) then [s[0]] else []) + (if IsIndex(s[1]) then [s[1]] else [])
                          + (if IsIndex(s[2]) then [s[2]] else [])
  {
    var t := s[1..];
    var u := t[1..];
    assert u[1..] == [];
    assert Filter(s, IsLevel) == (if IsLevel(s[0]) then [s[0]] else []) + Filter(t, IsLevel);
    assert Filter(t, IsLevel) == (if IsLevel(s[1]) then [s[1]] else []) + Filter(u, IsLevel);
    assert Filter(u, IsLevel) == (if IsLevel(s[2]) then [s[2]] else []);
    assert Filter(s, IsIndex) == (if IsIndex(s[0]) then [s[0]] else []) + Filter(t, IsIndex);
    assert Filter(t, IsIndex) == (if IsIndex(s[1]) then [s[1]] else []) + Filter(u, IsIndex);
    assert Filter(u, IsIndex) == (if IsIndex(s[2]) then [s[2]] else []);
  }
}
