/** Classification of indicator names into level and index series
    (app.py, lines 11-13). */
module Indicators {
  import opened Seqs
  import opened Strings

  /** The marker whose presence makes an indicator an index series. */
  const Marker: string := "Index_"

  /** `'Index_' in ind`: true for index (survey score) indicators. */
  predicate IsIndex(name: string)
  {
    Contains(name, Marker)
  }

  predicate IsLevel(name: string)
  {
    !IsIndex(name)
  }

  /** `selected_normal`: the level indicators, in selection order. */
  function Levels(names: seq<string>): seq<string>
  {
    Filter(names, IsLevel)
  }

  /** `selected_index`: the index indicators, in selection order. */
  function Indices(names: seq<string>): seq<string>
  {
    Filter(names, IsIndex)
  }

  /** Classification is lexical: the marker may occur at ANY offset of the
      name, not only as its prefix. */
  lemma IsIndexIff(name: string)
    ensures IsIndex(name) <==> exists i :: OccursAt(name, Marker, i)
  {
    ContainsIff(name, Marker);
  }

  /** A name that starts with the marker is an index indicator. */
  lemma PrefixIsIndex(name: string)
    requires |Marker| <= |name| && name[..|Marker|] == Marker
    ensures IsIndex(name)
  {
    PrefixContains(name, Marker);
  }

  /** A name without the letter `I` is a level indicator. */
  lemma NoCapitalIIsLevel(name: string)
    requires 'I' !in name
    ensures IsLevel(name)
  {
    FirstCharAbsent(name, Marker);
  }

  /** The marker in the middle of a name still classifies it as an index. */
  lemma MarkerInsideName()
    ensures IsIndex("Preise Index_Kohle")
    ensures "Preise Index_Kohle"[..|Marker|] != Marker
  {
    assert "Preise Index_Kohle"[..|Marker|][0] != Marker[0];
    assert OccursAt("Preise Index_Kohle", Marker, 7);
    IsIndexIff("Preise Index_Kohle");
  }

  /** The two lists are a true partition of the selection: their multiset
      union is the selection, every name lands in exactly one of them, and
      each keeps the selection's order. */
  lemma {:induction false} PartitionIsExact(names: seq<string>)
    ensures multiset(Levels(names)) + multiset(Indices(names)) == multiset(names)
    ensures |Levels(names)| + |Indices(names)| == |names|
    ensures forall n :: n in Levels(names) <==> n in names && !IsIndex(n)
    ensures forall n :: n in Indices(names) <==> n in names && IsIndex(n)
    ensures multiset(Levels(names)) * multiset(Indices(names)) == multiset{}
    ensures IsSubsequence(Levels(names), names) && IsSubsequence(Indices(names), names)
  {
    PartitionCount(names);
    PartitionMembers(names);
    forall n ensures multiset(Levels(names))[n] == 0 || multiset(Indices(names))[n] == 0 {
      FilterCount(names, IsLevel, n);
      FilterCount(names, IsIndex, n);
    }
    assert multiset(Levels(names)) * multiset(Indices(names)) == multiset{};
    FilterSubsequence(names, IsLevel);
    FilterSubsequence(names, IsIndex);
  }

  /** The two lists together are as long as the selection and hold the same
      names, as a multiset. */
  lemma PartitionCount(names: seq<string>)
    ensures multiset(Levels(names)) + multiset(Indices(names)) == multiset(names)
    ensures |Levels(names)| + |Indices(names)| == |names|
  {
    forall n ensures multiset(Levels(names))[n] + multiset(Indices(names))[n] == multiset(names)[n] {
      FilterCount(names, IsLevel, n);
      FilterCount(names, IsIndex, n);
    }
    assert multiset(Levels(names)) + multiset(Indices(names)) == multiset(names);
    assert |multiset(Levels(names)) + multiset(Indices(names))| == |multiset(names)|;
  }

  /** A name is in exactly the list its class says, if it was selected. */
  lemma PartitionMembers(names: seq<string>)
    ensures forall n :: n in Levels(names) <==> n in names && !IsIndex(n)
    ensures forall n :: n in Indices(names) <==> n in names && IsIndex(n)
  {
    forall n
      ensures n in Levels(names) <==> n in names && !IsIndex(n)
      ensures n in Indices(names) <==> n in names && IsIndex(n)
    {
      FilterMembership(names, IsLevel, n);
      FilterMembership(names, IsIndex, n);
    }
  }

  /** Some level indicator is selected iff `selected_normal` is non-empty. */
  lemma LevelsNonEmpty(names: seq<string>)
    ensures Levels(names) != [] <==> exists i :: 0 <= i < |names| && !IsIndex(names[i])
  {
    PartitionMembers(names);
    if Levels(names) != [] {
      assert Levels(names)[0] in names;
    }
    if i :| 0 <= i < |names| && !IsIndex(names[i]) {
      assert names[i] in Levels(names);
    }
  }

  /** Some index indicator is selected iff `selected_index` is non-empty. */
  lemma IndicesNonEmpty(names: seq<string>)
    ensures Indices(names) != [] <==> exists i :: 0 <= i < |names| && IsIndex(names[i])
  {
    PartitionMembers(names);
    if Indices(names) != [] {
      assert Indices(names)[0] in names;
    }
    if i :| 0 <= i < |names| && IsIndex(names[i]) {
      assert names[i] in Indices(names);
    }
  }

  /** Element-wise classification of the two lists. */
  lemma PartitionClasses(names: seq<string>)
    ensures forall i :: 0 <= i < |Levels(names)| ==> !IsIndex(Levels(names)[i])
    ensures forall i :: 0 <= i < |Indices(names)| ==> IsIndex(Indices(names)[i])
  {
    FilterSatisfies(names, IsLevel);
    FilterSatisfies(names, IsIndex);
  }
}
