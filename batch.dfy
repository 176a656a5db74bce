/**
 * What a batch of records says about transponder codes: which hexes it
 * mentions, where each one last occurs, and which of them are new with
 * respect to a set of hexes already known, in order of first appearance.
 * Every definition reads the batch from its end, as a loop over it grows.
 */
module Batch {
  import opened Geo

  /** The hexes mentioned in a batch. */
  function HexesOf(batch: seq<AircraftRecord>): set<string>
    decreases |batch|
  {
    if batch == [] then {} else HexesOf(batch[..|batch| - 1]) + {batch[|batch| - 1].hex}
  }

  /** A hex is mentioned exactly when some record carries it. */
  lemma {:induction false} HexesOfMembers(batch: seq<AircraftRecord>, hex: string)
    ensures hex in HexesOf(batch) <==> exists i :: 0 <= i < |batch| && batch[i].hex == hex
    decreases |batch|
  {
    if batch != [] {
      var prefix := batch[..|batch| - 1];
      HexesOfMembers(prefix, hex);
      if hex in HexesOf(prefix) {
        var i :| 0 <= i < |prefix| && prefix[i].hex == hex;
        assert batch[i].hex == hex;
      }
      if exists i :: 0 <= i < |batch| && batch[i].hex == hex {
        var i :| 0 <= i < |batch| && batch[i].hex == hex;
        if i < |prefix| {
          assert prefix[i].hex == hex;
        }
      }
    }
  }

  /** The index of the last record for `hex`, or -1 if the batch has none. */
  function LastIndexOf(batch: seq<AircraftRecord>, hex: string): (k: int)
    ensures -1 <= k < |batch|
    ensures k >= 0 ==> batch[k].hex == hex
    ensures forall j :: k < j < |batch| ==> batch[j].hex != hex
    ensures k >= 0 <==> hex in HexesOf(batch)
    decreases |batch|
  {
    if batch == [] then -1
    else if batch[|batch| - 1].hex == hex then |batch| - 1
    else LastIndexOf(batch[..|batch| - 1], hex)
  }

  /** Extending a batch by one record adds that record's hex. */
  lemma HexesOfExtend(batch: seq<AircraftRecord>, i: nat)
    requires i < |batch|
    ensures HexesOf(batch[..i + 1]) == HexesOf(batch[..i]) + {batch[i].hex}
  {
    assert batch[..i + 1][..i] == batch[..i];
  }

  predicate Distinct(s: seq<string>)
  {
    forall i, j :: 0 <= i < j < |s| ==> s[i] != s[j]
  }

  /** The hexes of the batch not in `known`, each once, in order of first appearance. */
  function NewHexes(batch: seq<AircraftRecord>, known: set<string>): (added: seq<string>)
    ensures forall j :: 0 <= j < |added| ==> added[j] in HexesOf(batch) && added[j] !in known
    decreases |batch|
  {
    if batch == [] then []
    else
      var prefix := batch[..|batch| - 1];
      var hex := batch[|batch| - 1].hex;
      var before := NewHexes(prefix, known);
      if hex in known || hex in HexesOf(prefix) then before else before + [hex]
  }

  /** Extending a batch by one record adds its hex to the new ones exactly when it was neither known nor seen. */
  lemma NewHexesExtend(batch: seq<AircraftRecord>, known: set<string>, i: nat)
    requires i < |batch|
    ensures NewHexes(batch[..i + 1], known)
         == if batch[i].hex in known || batch[i].hex in HexesOf(batch[..i]) then NewHexes(batch[..i], known)
            else NewHexes(batch[..i], known) + [batch[i].hex]
  {
    assert batch[..i + 1][..i] == batch[..i];
  }

  /** The new hexes are distinct, and are exactly the mentioned hexes that are not known. */
  lemma {:induction false} NewHexesMembers(batch: seq<AircraftRecord>, known: set<string>)
    ensures Distinct(NewHexes(batch, known))
    ensures forall h :: h in NewHexes(batch, known) <==> h in HexesOf(batch) && h !in known
    decreases |batch|
  {
    if batch != [] {
      var prefix := batch[..|batch| - 1];
      NewHexesMembers(prefix, known);
    }
  }

  lemma {:induction false} DistinctCardinality(s: seq<string>)
    requires Distinct(s)
    ensures |set h | h in s| == |s|
  {
    if s != [] {
      var rest := s[1..];
      assert Distinct(rest) by {
        forall i, j | 0 <= i < j < |rest| ensures rest[i] != rest[j] {
          assert rest[i] == s[i + 1] && rest[j] == s[j + 1];
        }
      }
      DistinctCardinality(rest);
      assert (set h | h in s) == (set h | h in rest) + {s[0]};
      assert s[0] !in rest;
    }
  }

  /** As many hexes are new as the batch mentions outside `known`. */
  lemma NewHexesCount(batch: seq<AircraftRecord>, known: set<string>)
    ensures |NewHexes(batch, known)| == |HexesOf(batch) - known|
  {
    var added := NewHexes(batch, known);
    NewHexesMembers(batch, known);
    DistinctCardinality(added);
    assert (set h | h in added) == HexesOf(batch) - known;
  }

  /** A batch whose every hex is known adds nothing. */
  lemma KnownHexesAddNothing(batch: seq<AircraftRecord>, known: set<string>)
    requires HexesOf(batch) <= known
    ensures NewHexes(batch, known) == []
  {
    NewHexesMembers(batch, known);
  }
}
