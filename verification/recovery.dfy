/** `get_mystery_byte`: from the moment New Game was pressed and the damage values
    the new session showed, find the byte the game mixed into its seed. */
module Recovery {
  import opened Wrappers
  import opened Bits
  import opened SeedHash
  import opened Calendar
  import opened TimestampKey
  import opened Catalogue
  import opened CatalogueRows
  import opened Lookup

  /** What one attempt with one observed triple comes to. `SeedInvalid` is the
      branch that re-checks that the looked-up seed is a key of the table. */
  datatype Attempt = Found(mysteryByte: nat) | SeedNotFound | SeedInvalid | NoByteMatches

  /** The least byte from c on whose mix with the key hashes to the seed. */
  function LeastByteFrom(key: nat, seed: int, c: nat): (r: Option<nat>)
    requires c <= 256
    ensures r.Some? ==> c <= r.value < 256
    decreases 256 - c
  {
    if c == 256 then None
    else if DatetimeToSeed(Xor(key, c)) == seed then Some(c)
    else LeastByteFrom(key, seed, c + 1)
  }

  /** The byte found from c on reproduces the seed and no byte between c and it
      does; nothing is found exactly when no byte from c on reproduces it. */
  lemma {:induction false} LeastByteFromIsLeast(key: nat, seed: int, c: nat)
    requires c <= 256
    ensures var r := LeastByteFrom(key, seed, c);
      && (r.Some? ==> DatetimeToSeed(Xor(key, r.value)) == seed)
      && (r.Some? ==> forall d :: c <= d < r.value ==> DatetimeToSeed(Xor(key, d)) != seed)
      && (r.None? <==> forall d :: c <= d < 256 ==> DatetimeToSeed(Xor(key, d)) != seed)
    decreases 256 - c
  {
    if c < 256 && DatetimeToSeed(Xor(key, c)) != seed {
      LeastByteFromIsLeast(key, seed, c + 1);
    }
  }

  /** The least byte b with `datetime_to_seed(key ^ b) == seed`, if there is one. */
  function LeastByte(key: nat, seed: int): (r: Option<nat>)
    ensures r.Some? ==> r.value < 256
  {
    LeastByteFrom(key, seed, 0)
  }

  /** The byte found is the least that reproduces the seed, and none is found
      exactly when no byte does. */
  lemma LeastByteIsLeast(key: nat, seed: int)
    ensures LeastByte(key, seed).Some? ==> DatetimeToSeed(Xor(key, LeastByte(key, seed).value)) == seed
    ensures LeastByte(key, seed).Some? ==>
      forall d :: 0 <= d < LeastByte(key, seed).value ==> DatetimeToSeed(Xor(key, d)) != seed
    ensures LeastByte(key, seed).None? <==> forall d :: 0 <= d < 256 ==> DatetimeToSeed(Xor(key, d)) != seed
  {
    LeastByteFromIsLeast(key, seed, 0);
  }

  /** The scan `for mystery_byte in range(256)`, which stops at the first byte
      whose mix with the key hashes to the seed. */
  method FindMysteryByte(key: nat, seed: int) returns (r: Option<nat>)
    ensures r == LeastByte(key, seed)
  {
    var b := 0;
    while b < 256
      invariant 0 <= b <= 256
      invariant LeastByteFrom(key, seed, b) == LeastByte(key, seed)
    {
      if seed == DatetimeToSeed(Xor(key, b)) {
        return Some(b);
      }
      b := b + 1;
    }
    return None;
  }

  /** The outcome of one attempt: look the triple up, then scan for the byte. */
  function Outcome(key: nat, dvs: DamageValues): (r: Attempt)
    ensures r.Found? ==> r.mysteryByte < 256
  {
    match FirstRowWith(dvs)
    case None => SeedNotFound
    case Some(i) =>
      match LeastByte(key, SeedsToDvs()[i].seed)
      case None => NoByteMatches
      case Some(b) => Found(b)
  }

  /** One pass of the prompt loop with an already parsed triple. */
  method TryRecover(key: nat, dvs: DamageValues) returns (r: Attempt)
    ensures r == Outcome(key, dvs)
    ensures r != SeedInvalid
  {
    var found := FindSeedByDvs(dvs);
    if found.None? {
      return SeedNotFound;
    }
    var seed := found.value;
    if !IsKnownSeed(seed) {
      return SeedInvalid;
    }
    var b := FindMysteryByte(key, seed);
    if b.None? {
      return NoByteMatches;
    }
    return Found(b.value);
  }

  /** The seed check after the lookup never fails, and the lookup fails exactly
      when no row shows the triple. */
  lemma OutcomeCases(key: nat, dvs: DamageValues)
    ensures Outcome(key, dvs) != SeedInvalid
    ensures Outcome(key, dvs) == SeedNotFound <==> !HasDvs(dvs)
  {
    FirstRowWithIsFirst(dvs);
  }

  /** A recovered byte is the least one that reproduces, from the same key, the
      seed of the first row showing the triple. */
  lemma FoundByteRoundTrip(key: nat, dvs: DamageValues)
    requires Outcome(key, dvs).Found?
    ensures HasDvs(dvs)
    ensures var b := Outcome(key, dvs).mysteryByte;
      && b < 256
      && DatetimeToSeed(Xor(key, b)) == SeedsToDvs()[FirstRowWith(dvs).value].seed
      && forall d :: 0 <= d < b ==> DatetimeToSeed(Xor(key, d)) != SeedsToDvs()[FirstRowWith(dvs).value].seed
  {
    FirstRowWithIsFirst(dvs);
    LeastByteIsLeast(key, SeedsToDvs()[FirstRowWith(dvs).value].seed);
  }

  /** For a key that is a byte, the only byte reproducing the seed of row i is
      the key mixed with i. */
  lemma UniqueMatchingByte(key: nat, i: nat, c: nat)
    requires key < 256 && i < |SeedsToDvs()| && c < 256
    ensures DatetimeToSeed(Xor(key, c)) == SeedsToDvs()[i].seed <==> c == Xor(key, i)
  {
    XorByte(key, c);
    SeedIsHashOfIndex(i);
    HashInjectiveOnBytes(Xor(key, c), i);
    XorSolve(key, c, i);
  }

  /** With a key that is a byte, an observed triple of the table always yields a
      byte, and that byte is the key mixed with the triple's first row. */
  lemma OutcomeForByteKey(key: nat, dvs: DamageValues)
    requires key < 256 && HasDvs(dvs)
    ensures FirstRowWith(dvs).Some? && Outcome(key, dvs) == Found(Xor(key, FirstRowWith(dvs).value))
  {
    FirstRowWithIsFirst(dvs);
    var i := FirstRowWith(dvs).value;
    var seed := SeedsToDvs()[i].seed;
    var b := Xor(key, i);
    XorByte(key, i);
    UniqueMatchingByte(key, i, b);
    forall d | 0 <= d < 256
      ensures DatetimeToSeed(Xor(key, d)) == seed <==> d == b
    {
      UniqueMatchingByte(key, i, d);
    }
    LeastByteIsLeast(key, seed);
  }

  /** None of the first n triples yields a byte. */
  predicate NoneFound(key: nat, observations: seq<DamageValues>, n: nat)
    requires n <= |observations|
  {
    n == 0 || (NoneFound(key, observations, n - 1) && !Outcome(key, observations[n - 1]).Found?)
  }

  /** The prompt loop of `get_mystery_byte` over the triples the player enters in
      turn: it stops at the first attempt that yields a byte and reports the
      byte and how many triples were entered before it. When the triples run
      out first, the source would go on prompting. */
  method PromptLoop(key: nat, observations: seq<DamageValues>) returns (r: Option<nat>, used: nat)
    ensures r.Some? ==> used < |observations| && Outcome(key, observations[used]) == Found(r.value)
    ensures r.None? ==> used == |observations|
    ensures used <= |observations| && NoneFound(key, observations, used)
  {
    used := 0;
    while used < |observations|
      invariant used <= |observations|
      invariant NoneFound(key, observations, used)
    {
      var attempt := TryRecover(key, observations[used]);
      if attempt.Found? {
        return Some(attempt.mysteryByte), used;
      }
      used := used + 1;
    }
    return None, used;
  }

  /** `get_mystery_byte` from the moment New Game was pressed: the key is taken
      one second later, and the prompt loop runs with it. */
  method RecoverMysteryByte(pressed: Timestamp, observations: seq<DamageValues>)
    returns (r: Option<nat>, used: nat)
    requires HasKey(pressed)
    ensures HasKey(AddSecond(pressed))
    ensures r.Some? ==>
      used < |observations| && Outcome(Key(AddSecond(pressed)), observations[used]) == Found(r.value)
    ensures r.None? ==> used == |observations|
    ensures used <= |observations| && NoneFound(Key(AddSecond(pressed)), observations, used)
  {
    var dt := AddSecond(pressed);
    var key := Key(dt);
    r, used := PromptLoop(key, observations);
  }
}
