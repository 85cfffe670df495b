/** The run-length coded table of source positions that a chunk keeps beside its code. */
module Locations {
  import opened Bytes

  datatype Entry = Entry(line: int, col: int, count: nat)

  datatype Place = Place(line: int, col: int)

  const NOWHERE: Place := Place(-1, -1)

  function Times(p: Place, n: nat): seq<Place> { seq(n, _ => p) }

  /** The position of every byte, one after the other. */
  function Places(entries: seq<Entry>): seq<Place> {
    if entries == [] then [] else Places(entries[..|entries| - 1]) + Last(entries)
  }

  function Last(entries: seq<Entry>): seq<Place>
    requires entries != []
  {
    var e := entries[|entries| - 1];
    Times(Place(e.line, e.col), e.count)
  }

  /** Neighbouring entries have different positions: no shorter table says the same. */
  ghost predicate Compressed(entries: seq<Entry>) {
    && (forall i | 0 <= i < |entries| :: entries[i].count > 0)
    && forall i, j | 0 <= i < |entries| && 0 <= j < |entries| && j == i + 1 :: entries[i].line != entries[j].line || entries[i].col != entries[j].col
  }

  class Chunk {
    var code: seq<byte>
    var locations: seq<Entry>

    constructor ()
      ensures code == [] && Places(locations) == [] && Valid()
    {
      code, locations := [], [];
    }

    ghost predicate Valid() reads this { |Places(locations)| == |code| && Compressed(locations) }

    /** One byte more, with its position; the table stays as short as it can be. */
    method Write(b: byte, line: int, col: int)
      requires Valid()
      modifies this
      ensures Valid() && code == old(code) + [b] && Places(locations) == old(Places(locations)) + [Place(line, col)]
    {
      code := code + [b];
      var n := |locations|;
      if n == 0 || locations[n - 1].line != line || locations[n - 1].col != col {
        PushPlaces(locations, Entry(line, col, 1));
        locations := locations + [Entry(line, col, 1)];
      } else {
        BumpPlaces(locations);
        locations := locations[n - 1 := locations[n - 1].(count := locations[n - 1].count + 1)];
      }
    }

    /** The position of the byte at an offset, or nowhere past the end. */
    method GetLocation(offset: int) returns (p: Place)
      ensures p == if offset < 0 then (if locations == [] then NOWHERE else Place(locations[0].line, locations[0].col))
                   else if offset < |Places(locations)| then Places(locations)[offset] else NOWHERE
    {
      var current, i := 0, 0;
      assert locations[..0] == [];
      while i < |locations|
        invariant i <= |locations| && current == |Places(locations[..i])| && (offset >= current || (i == 0 && offset < 0))
      {
        assert locations[..i + 1][..i] == locations[..i];
        current := current + locations[i].count;
        PlacesPrefix(locations, i + 1);
        if offset < current { return Place(locations[i].line, locations[i].col); }
        i := i + 1;
      }
      assert locations[..i] == locations;
      p := NOWHERE;
    }
  }

  lemma PushPlaces(entries: seq<Entry>, e: Entry)
    ensures Places(entries + [e]) == Places(entries) + Times(Place(e.line, e.col), e.count)
  {
    assert (entries + [e])[..|entries|] == entries;
  }

  lemma BumpPlaces(entries: seq<Entry>)
    requires entries != []
    ensures var n, e := |entries|, entries[|entries| - 1];
            Places(entries[n - 1 := e.(count := e.count + 1)]) == Places(entries) + [Place(e.line, e.col)]
  {
    var n, e := |entries|, entries[|entries| - 1];
    var more := entries[n - 1 := e.(count := e.count + 1)];
    assert more[..n - 1] == entries[..n - 1];
    assert Last(more) == Last(entries) + [Place(e.line, e.col)];
  }

  /** The positions of the first entries come first. */
  lemma {:induction false} PlacesPrefix(entries: seq<Entry>, k: nat)
    requires k <= |entries|
    ensures Places(entries[..k]) <= Places(entries)
    decreases |entries| - k
  {
    if k == |entries| {
      assert entries[..k] == entries;
    } else {
      assert entries[..k + 1][..k] == entries[..k];
      PlacesPrefix(entries, k + 1);
    }
  }
}
