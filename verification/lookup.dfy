/** Looking seeds up in the catalogue: by the damage-value triple a new game
    showed (`get_mystery_byte`), by a position or a seed number the player typed,
    and back from a seed to its position (`main`). */
module Lookup {
  import opened Wrappers
  import opened SeedHash
  import opened Catalogue
  import opened CatalogueRows

  /** `seed in SEEDS_TO_DVS`. */
  predicate IsKnownSeed(n: int)
  {
    exists i :: 0 <= i < |SeedsToDvs()| && SeedsToDvs()[i].seed == n
  }

  /** Some row of the catalogue shows the triple. */
  predicate HasDvs(dvs: DamageValues)
  {
    exists i :: 0 <= i < |SeedsToDvs()| && SeedsToDvs()[i].dvs == dvs
  }

  /** The first of the rows at or after row k whose triple is `dvs`. */
  function FirstRowFrom(rows: seq<Entry>, dvs: DamageValues, k: nat): (r: Option<nat>)
    requires k <= |rows|
    ensures r.Some? ==> k <= r.value < |rows|
    decreases |rows| - k
  {
    if k == |rows| then None
    else if rows[k].dvs == dvs then Some(k)
    else FirstRowFrom(rows, dvs, k + 1)
  }

  /** The row found from k on shows the triple and no row between k and it
      does; nothing is found exactly when no row from k on shows it. */
  lemma {:induction false} FirstRowFromIsFirst(rows: seq<Entry>, dvs: DamageValues, k: nat)
    requires k <= |rows|
    ensures FirstRowFrom(rows, dvs, k).Some? ==> rows[FirstRowFrom(rows, dvs, k).value].dvs == dvs
    ensures FirstRowFrom(rows, dvs, k).Some? ==>
      forall j :: k <= j < FirstRowFrom(rows, dvs, k).value ==> rows[j].dvs != dvs
    ensures FirstRowFrom(rows, dvs, k).None? <==> forall j :: k <= j < |rows| ==> rows[j].dvs != dvs
    decreases |rows| - k
  {
    if k < |rows| && rows[k].dvs != dvs {
      FirstRowFromIsFirst(rows, dvs, k + 1);
    }
  }

  /** The first row of the catalogue, in table order, whose triple is `dvs`. */
  function FirstRowWith(dvs: DamageValues): (r: Option<nat>)
    ensures r.Some? ==> r.value < |SeedsToDvs()|
  {
    FirstRowFrom(SeedsToDvs(), dvs, 0)
  }

  /** The first row showing the triple shows it, no earlier row does, and there
      is none exactly when no row shows the triple. */
  lemma FirstRowWithIsFirst(dvs: DamageValues)
    ensures FirstRowWith(dvs).None? <==> !HasDvs(dvs)
    ensures FirstRowWith(dvs).Some? ==> SeedsToDvs()[FirstRowWith(dvs).value].dvs == dvs
    ensures FirstRowWith(dvs).Some? ==>
      forall j :: 0 <= j < FirstRowWith(dvs).value ==> SeedsToDvs()[j].dvs != dvs
  {
    FirstRowFromIsFirst(SeedsToDvs(), dvs, 0);
  }

  /** The reverse lookup of `get_mystery_byte`: walk the table in order and stop
      at the first row whose triple equals the observed one. */
  method FindSeedByDvs(dvs: DamageValues) returns (r: Option<int>)
    ensures r == (if FirstRowWith(dvs).Some? then Some(SeedsToDvs()[FirstRowWith(dvs).value].seed) else None)
    ensures r.Some? ==> IsKnownSeed(r.value)
  {
    var rows := SeedsToDvs();
    r := None;
    var i := 0;
    while i < |rows|
      invariant 0 <= i <= |rows|
      invariant FirstRowFrom(rows, dvs, i) == FirstRowWith(dvs)
    {
      if rows[i].dvs == dvs {
        r := Some(rows[i].seed);
        FirstRowWithIsFirst(dvs);
        return;
      }
      i := i + 1;
    }
  }

  /** `possible_seeds`: the table's seeds in order. */
  function PossibleSeeds(): (r: seq<int>)
    ensures |r| == |SeedsToDvs()| == CatalogueSize
    ensures forall i :: 0 <= i < |r| ==> r[i] == SeedsToDvs()[i].seed
  {
    seq(|SeedsToDvs()|, i requires 0 <= i < |SeedsToDvs()| => SeedsToDvs()[i].seed)
  }

  /** Position i of `possible_seeds` holds `datetime_to_seed(i)`. */
  lemma PossibleSeedIsHashOfIndex(i: int)
    requires 0 <= i < |PossibleSeeds()|
    ensures PossibleSeeds()[i] == DatetimeToSeed(i)
  {
    SeedIsHashOfIndex(i);
  }

  /** Seeds further down the table are smaller. */
  lemma {:induction false} SeedsStrictlyDecreasing(i: int, j: int)
    requires 0 <= i < j < |SeedsToDvs()|
    ensures SeedsToDvs()[i].seed > SeedsToDvs()[j].seed
    decreases j - i
  {
    SeedDescendsAt(i);
    if i + 1 < j {
      SeedsStrictlyDecreasing(i + 1, j);
    }
  }

  /** No seed appears twice in the table. */
  lemma SeedsDistinct(i: int, j: int)
    requires 0 <= i < |SeedsToDvs()| && 0 <= j < |SeedsToDvs()|
    ensures SeedsToDvs()[i].seed == SeedsToDvs()[j].seed <==> i == j
  {
    if i < j {
      SeedsStrictlyDecreasing(i, j);
    } else if j < i {
      SeedsStrictlyDecreasing(j, i);
    }
  }

  /** Every seed of the table exceeds 255, so no seed number is also a position. */
  lemma SeedsAbove255(i: int)
    requires 0 <= i < |SeedsToDvs()|
    ensures SeedsToDvs()[i].seed > 255
  {
    LastSeedAbove255();
    if i < |SeedsToDvs()| - 1 {
      SeedsStrictlyDecreasing(i, |SeedsToDvs()| - 1);
    }
  }

  /** Distinct keys from 0 to 255 give distinct seeds. */
  lemma HashInjectiveOnBytes(j: int, k: int)
    requires 0 <= j < 256 && 0 <= k < 256
    ensures DatetimeToSeed(j) == DatetimeToSeed(k) <==> j == k
  {
    LastSeedAbove255();
    SeedIsHashOfIndex(j);
    SeedIsHashOfIndex(k);
    SeedsDistinct(j, k);
  }

  /** `s.index(n)`: the position of the first occurrence of n in s. */
  function IndexOf(s: seq<int>, n: int): (r: nat)
    requires n in s
    ensures r < |s| && s[r] == n
    ensures n !in s[..r]
  {
    if s[0] == n then 0
    else
      assert n in s[1..];
      var r := 1 + IndexOf(s[1..], n);
      assert s[1..][..r - 1] == s[1..r];
      r
  }

  /** A seed is in `possible_seeds` exactly when it is a key of the table. */
  lemma PossibleSeedsAreKeys(n: int)
    ensures n in PossibleSeeds() <==> IsKnownSeed(n)
  {
    if n in PossibleSeeds() {
      var i :| 0 <= i < |PossibleSeeds()| && PossibleSeeds()[i] == n;
    }
  }

  /** `possible_seeds.index(n)`: the row of seed n. */
  function IndexOfSeed(n: int): (r: nat)
    requires IsKnownSeed(n)
    ensures r < |SeedsToDvs()| && SeedsToDvs()[r].seed == n
    ensures forall j :: 0 <= j < r ==> SeedsToDvs()[j].seed != n
  {
    PossibleSeedsAreKeys(n);
    var r := IndexOf(PossibleSeeds(), n);
    assert forall j :: 0 <= j < r ==> PossibleSeeds()[..r][j] == SeedsToDvs()[j].seed;
    r
  }

  /** Looking up the seed at position i gives back i. */
  lemma IndexOfSeedAtIndex(i: int)
    requires 0 <= i < |SeedsToDvs()|
    ensures IsKnownSeed(SeedsToDvs()[i].seed)
    ensures IndexOfSeed(SeedsToDvs()[i].seed) == i
  {
    SeedsDistinct(i, IndexOfSeed(SeedsToDvs()[i].seed));
  }

  /** The seed-selection rule of `main`: a number from 0 to 255 picks the seed
      at that position; any other number is taken as a seed and accepted only
      when the table has it. */
  function SelectSeed(n: int): (r: Option<int>)
    ensures r.Some? ==> IsKnownSeed(r.value)
    ensures 0 <= n <= 255 ==> r == Some(SeedsToDvs()[n].seed)
    ensures !(0 <= n <= 255) ==> (r.Some? <==> IsKnownSeed(n))
  {
    if 0 <= n <= 255 then Some(PossibleSeeds()[n])
    else if IsKnownSeed(n) then Some(n)
    else None
  }

  /** Typing a seed of the table selects that very seed: seeds and positions
      never overlap. */
  lemma KnownSeedSelectsItself(n: int)
    requires IsKnownSeed(n)
    ensures SelectSeed(n) == Some(n)
  {
    var i :| 0 <= i < |SeedsToDvs()| && SeedsToDvs()[i].seed == n;
    SeedsAbove255(i);
  }

  /** The position `main` reports for the selected seed: the number typed when
      it was a position, the seed's own row otherwise. */
  lemma SelectedSeedPosition(n: int)
    requires SelectSeed(n).Some?
    ensures IndexOfSeed(SelectSeed(n).value) == if 0 <= n <= 255 then n else IndexOfSeed(n)
  {
    if 0 <= n <= 255 {
      IndexOfSeedAtIndex(n);
    }
  }

  /** A number is refused exactly when it is neither a position nor a seed. */
  lemma SelectSeedRefuses(n: int)
    ensures SelectSeed(n).None? <==> (n < 0 || n > 255) && !IsKnownSeed(n)
  {
  }
}
