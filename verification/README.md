# FFX HD PC seed manipulation tool — a verified model of its engine

The tool helps a Final Fantasy X HD (PC) player start a new game on a chosen
random seed. The game derives its seed from the wall-clock second at which
New Game is pressed: it XORs the day, month, low year byte, hour, minute and
second with a per-session "mystery byte", then runs the result through a
multiply-add hash (`datetime_to_seed`). The tool works in two steps.

- It recovers the mystery byte. The player reports the three damage values
  that the new session showed. The tool looks that triple up in its table of
  256 seeds (`SEEDS_TO_DVS`). It then scans the bytes 0..255 for the first one
  that reproduces the looked-up seed from the key of the second after the
  press.
- It lists the seconds in the next ten minutes at which pressing New Game
  gives the target seed.

This project models that engine in Dafny:

- the signed 32-bit wrap and the seed hash;
- the timestamp key, including the `int(hex(year)[-2:], 16)` year transform;
- the 256-entry outcome table;
- the reverse lookup by damage values and the mystery-byte scan;
- the seed-selection rule;
- the 600-second window search.

Module layout:

| module | file | models |
|---|---|---|
| `Wrappers` | `wrappers.dfy` | an `Option` type for the lookups that can fail |
| `Bits` | `bits.dfy` | Python's `^` on non-negative integers, defined bit by bit |
| `Int32` | `int32.dfy` | `s32` |
| `SeedHash` | `seed_hash.dfy` | `datetime_to_seed` |
| `Calendar` | `calendar.dfy` | the `datetime` fields the tool reads; `+ ONE_SECOND` and `- ONE_SECOND` with Gregorian carries |
| `TimestampKey` | `timestamp_key.dfy` | `hex`, `int(…, 16)`, the year byte and the XOR key |
| `Catalogue` | `catalogue.dfy` | `SEEDS_TO_DVS` as a sequence of rows in insertion order |
| `KeySeeds`, `CatalogueRows` | `key_seeds.dfy`, `catalogue_rows.dfy` | facts about the table: row i holds `datetime_to_seed(i)`; the seeds strictly decrease |
| `Lookup` | `lookup.dfy` | the reverse lookup by triple; `possible_seeds`; `.index`; the selection rule |
| `Recovery` | `recovery.dfy` | the byte scan and the prompt loop of `get_mystery_byte` |
| `Window` | `window.dfy` | the `range(600)` loop of `main` |

Three things the source itself does not make plain:

- **The year byte.** The comment at `ffx_hd_pc_manip_tool.py:173-174` says the
  last two year digits are "treated as an hex number". The code takes the
  last two *hexadecimal* digits of `hex(year)`. That value is `year % 256`
  for every year from 16 on, so 2024 contributes `0xe8` = 232, not `0x24`.
  The model follows the code: see `TimestampKey.YearByteIsLowByte` and
  `TimestampKey.YearByte2024`.
- **The seed check is dead.** The check `seed not in SEEDS_TO_DVS` after the
  lookup can never fail. `Recovery.TryRecover` proves this: it never returns
  `SeedInvalid`, and its result is the branch-free `Recovery.Outcome`.
- **The table is a hash table.** Row i of the table holds `datetime_to_seed(i)`,
  and the seeds strictly decrease down the table. So for a key that is a
  byte, the scan always finds exactly one byte (`Recovery.OutcomeForByteKey`).
  Also, a seed number typed by the player never collides with a position
  from 0 to 255 (`Lookup.KnownSeedSelectsItself`).

## Model

| member | source | states |
|---|---|---|
| Int32.Low32 | ffx_hd_pc_manip_tool.py:5-6 | `integer & 0xffffffff` lies in [0, 2^32) |
| Int32.S32 | ffx_hd_pc_manip_tool.py:5-6 | `s32` always lies in [-2^31, 2^31) |
| Int32.S32IsSignFlip | ffx_hd_pc_manip_tool.py:5-6 | S32 is exactly the source's `((x & 0xffffffff) ^ 0x80000000) - 0x80000000` |
| Int32.S32Congruent | ffx_hd_pc_manip_tool.py:5-6 | `s32(x)` is congruent to x modulo 2^32 |
| Int32.S32SameLow32 | ffx_hd_pc_manip_tool.py:5-6 | inputs congruent modulo 2^32 wrap to the same value |
| Int32.S32Identity | ffx_hd_pc_manip_tool.py:5-6 | values already in the signed 32-bit range are unchanged |
| Int32.S32Boundaries | ffx_hd_pc_manip_tool.py:5-6 | 2^31 ↦ -2^31; 0xFFFFFFFF ↦ -1; 2^32 ↦ 0; 2^31-1 and -1 are fixed |
| SeedHash.SignedSeed | ffx_hd_pc_manip_tool.py:10-13 | the signed value the rounds and the 16-bit fold compute lies in [-2^31, 2^31) |
| SeedHash.DatetimeToSeed | ffx_hd_pc_manip_tool.py:9-17 | the seed lies in [0, 2^32) and its signed reading is the hash's signed value: the negative branch adds 2^32 |
| SeedHash.SeedDependsOnLow32 | ffx_hd_pc_manip_tool.py:9-10 | keys congruent modulo 2^32 give the same seed, because the first step wraps `key + 1` |
| SeedHash.SeedFromRounds | ffx_hd_pc_manip_tool.py:9-17 | given the value of each wrap of the two rounds and the 16-bit fold, the seed is the final value, shifted by 2^32 when negative |
| Bits.Xor | ffx_hd_pc_manip_tool.py:86-92 | Python's `^` on non-negative integers, one binary digit at a time; the result never exceeds the sum of the operands (with `XorBelow`, `XorSelfInverse` and `XorSolve` below) |
| Bits.XorBelow | ffx_hd_pc_manip_tool.py:86-92 | the XOR of two n-bit numbers is an n-bit number |
| Bits.XorByte | ffx_hd_pc_manip_tool.py:118 | the XOR of two bytes is a byte |
| Bits.XorSelfInverse | ffx_hd_pc_manip_tool.py:118 | mixing the same byte in twice gives the key back |
| Bits.XorSolve | ffx_hd_pc_manip_tool.py:118 | `key ^ c == i` exactly when `c == key ^ i` |
| Bits.XorFlipsBit | ffx_hd_pc_manip_tool.py:5-6 | XOR with 2^n adds 2^n when bit n is clear and subtracts it when set (the sign flip of `s32`) |
| Calendar.DaysInMonth | ffx_hd_pc_manip_tool.py:172 | month lengths are 28 to 31 days; February has 29 days exactly in Gregorian leap years |
| Calendar.AddSecond | ffx_hd_pc_manip_tool.py:172 | `dt + ONE_SECOND` is a valid timestamp, strictly later, and never the first representable moment |
| Calendar.SubSecond | ffx_hd_pc_manip_tool.py:183 | `dt - ONE_SECOND` is a valid timestamp, strictly earlier |
| Calendar.SubSecondAfterAddSecond | ffx_hd_pc_manip_tool.py:183 | stepping back after stepping forward returns the original second |
| Calendar.AddSecondAfterSubSecond | ffx_hd_pc_manip_tool.py:183 | stepping forward after stepping back returns the original second |
| Calendar.AddSecondIsNext | ffx_hd_pc_manip_tool.py:202 | no valid timestamp lies strictly between t and t + 1s |
| Calendar.BeforeTransitive | ffx_hd_pc_manip_tool.py:171-172 | chronological order is transitive |
| Calendar.Advance | ffx_hd_pc_manip_tool.py:171-172 | n steps of one second give a valid timestamp in the same year or later |
| Calendar.AdvanceIncreasing | ffx_hd_pc_manip_tool.py:171-172 | more steps land strictly later |
| TimestampKey.HexDigits | ffx_hd_pc_manip_tool.py:88 | `hex` writes at least one digit |
| TimestampKey.Hex | ffx_hd_pc_manip_tool.py:88 | `hex(n)` starts with `0x` and has at least one digit |
| TimestampKey.HexValue | ffx_hd_pc_manip_tool.py:88 | a hexadecimal digit has a value below 16 |
| TimestampKey.ParseHex | ffx_hd_pc_manip_tool.py:88 | `int(s, 16)` succeeds exactly when s is non-empty and every character is a hexadecimal digit; `ParseHexDigits` gives the round trip with `hex` |
| TimestampKey.HexValueOfDigit | ffx_hd_pc_manip_tool.py:88 | reading the digit `hex` writes for d gives d |
| TimestampKey.ParseHexDigits | ffx_hd_pc_manip_tool.py:88 | `int(…, 16)` on the digits `hex` writes gives n back (round trip) |
| TimestampKey.ParseTwoChars | ffx_hd_pc_manip_tool.py:88 | `int(s, 16)` on two characters succeeds exactly when both are digits, with value 16·first + second |
| TimestampKey.YearByte | ffx_hd_pc_manip_tool.py:88 | `int(hex(year)[-2:], 16)` is a byte when it succeeds; `YearByteIsLowByte` gives its value, `year % 256`, and the years 1 to 15 where it raises |
| TimestampKey.LastTwoHexDigits | ffx_hd_pc_manip_tool.py:88 | for n ≥ 16, the last two characters of `hex(n)` are the digits of (n / 16) % 16 and n % 16 |
| TimestampKey.LowTwoDigits | ffx_hd_pc_manip_tool.py:88 | those two digits make up n modulo 256 |
| TimestampKey.YearByteIsLowByte | ffx_hd_pc_manip_tool.py:88 | `int(hex(year)[-2:], 16)` is `year % 256` for years from 16 on and raises ValueError for years 1 to 15 |
| TimestampKey.YearByte2024 | ffx_hd_pc_manip_tool.py:173-177 | 2024 contributes 232, not the 0x24 that the comment suggests |
| TimestampKey.Key | ffx_hd_pc_manip_tool.py:86-92 | the key is `day ^ month ^ (year % 256) ^ hour ^ minute ^ second` and lies in [0, 255] |
| TimestampKey.KeyWithByte | ffx_hd_pc_manip_tool.py:175-181 | the key mixed with any mystery byte is still in [0, 255] |
| Catalogue.Block | ffx_hd_pc_manip_tool.py:203-460 | each block of the table holds 16 rows |
| Catalogue.SeedsToDvs | ffx_hd_pc_manip_tool.py:203-460 | the table has 256 rows, in insertion order |
| CatalogueRows.SeedIsHashOfIndex | ffx_hd_pc_manip_tool.py:203-460 | the seed in row i is `datetime_to_seed(i)` |
| CatalogueRows.SeedDescendsAt | ffx_hd_pc_manip_tool.py:203-460 | each seed is larger than the next |
| CatalogueRows.LastSeedAbove255 | ffx_hd_pc_manip_tool.py:459 | the last seed exceeds 255 |
| KeySeeds.SeedsOfKeys000To015 | ffx_hd_pc_manip_tool.py:9-17 | the hash of each key 0..15 (the other 15 `SeedsOfKeys…` lemmas cover the rest of 0..255) |
| Lookup.IsKnownSeed | ffx_hd_pc_manip_tool.py:114 | `seed in SEEDS_TO_DVS`; `PossibleSeedsAreKeys` ties it to `possible_seeds`, and `SeedsAbove255` shows no known seed is a position |
| Lookup.FirstRowFrom | ffx_hd_pc_manip_tool.py:108-113 | a row found from row k on lies at or after k |
| Lookup.FirstRowFromIsFirst | ffx_hd_pc_manip_tool.py:108-113 | the row found shows the triple, no earlier row from k does, and none is found exactly when no row from k on shows it |
| Lookup.FirstRowWith | ffx_hd_pc_manip_tool.py:108-113 | the row found is a row of the table |
| Lookup.FirstRowWithIsFirst | ffx_hd_pc_manip_tool.py:108-113 | the lookup finds the first row in table order showing the triple, and fails exactly when no row shows it |
| Lookup.FindSeedByDvs | ffx_hd_pc_manip_tool.py:108-113 | the `for … else` walk returns the seed of the first matching row, or nothing; a returned seed is a key of the table |
| Lookup.PossibleSeeds | ffx_hd_pc_manip_tool.py:128 | `possible_seeds` lists the table's seeds in table order |
| Lookup.PossibleSeedIsHashOfIndex | ffx_hd_pc_manip_tool.py:128 | position i of `possible_seeds` holds `datetime_to_seed(i)` |
| Lookup.PossibleSeedsAreKeys | ffx_hd_pc_manip_tool.py:128 | a number is in `possible_seeds` exactly when it is a key of `SEEDS_TO_DVS` |
| Lookup.SeedsStrictlyDecreasing | ffx_hd_pc_manip_tool.py:203-460 | seeds further down the table are smaller |
| Lookup.SeedsDistinct | ffx_hd_pc_manip_tool.py:203-460 | two rows have the same seed exactly when they are the same row |
| Lookup.SeedsAbove255 | ffx_hd_pc_manip_tool.py:135-137 | every seed exceeds 255, so no seed number is also a position |
| Lookup.HashInjectiveOnBytes | ffx_hd_pc_manip_tool.py:117-118 | distinct keys in 0..255 hash to distinct seeds |
| Lookup.IndexOf | ffx_hd_pc_manip_tool.py:142 | `s.index(n)` is the position of the first occurrence of n |
| Lookup.IndexOfSeed | ffx_hd_pc_manip_tool.py:142 | `possible_seeds.index(seed)` is the row holding the seed, with no earlier row holding it |
| Lookup.IndexOfSeedAtIndex | ffx_hd_pc_manip_tool.py:142 | the index of the seed at position i is i |
| Lookup.SelectSeed | ffx_hd_pc_manip_tool.py:135-139 | 0..255 selects the seed at that position; any other number is accepted exactly when it is a key, and every selected seed is a key |
| Lookup.KnownSeedSelectsItself | ffx_hd_pc_manip_tool.py:135-139 | typing a seed of the table selects that very seed |
| Lookup.SelectedSeedPosition | ffx_hd_pc_manip_tool.py:142 | the reported position is the number typed when that number was a position, and the seed's row otherwise |
| Lookup.SelectSeedRefuses | ffx_hd_pc_manip_tool.py:135-139 | a number is refused exactly when it is outside 0..255 and not a key |
| Recovery.LeastByteFrom | ffx_hd_pc_manip_tool.py:117-120 | a byte found from c on lies in [c, 256) |
| Recovery.LeastByteFromIsLeast | ffx_hd_pc_manip_tool.py:117-120 | the byte found reproduces the seed, no smaller byte from c on does, and none is found exactly when no byte does |
| Recovery.LeastByte | ffx_hd_pc_manip_tool.py:117-120 | the byte found is below 256 |
| Recovery.LeastByteIsLeast | ffx_hd_pc_manip_tool.py:117-120 | the scan's result is the least byte b with `datetime_to_seed(key ^ b) == seed`, and there is none exactly when no byte matches |
| Recovery.FindMysteryByte | ffx_hd_pc_manip_tool.py:117-122 | the `for mystery_byte in range(256)` loop with its `break` returns exactly that least byte |
| Recovery.Outcome | ffx_hd_pc_manip_tool.py:108-122 | the result of one pass of the prompt loop; a recovered byte is below 256; `TryRecover` computes it and `OutcomeCases`, `FoundByteRoundTrip` and `OutcomeForByteKey` state its cases |
| Recovery.TryRecover | ffx_hd_pc_manip_tool.py:108-123 | one attempt (lookup, seed check, scan) ends in the outcome specified by `Outcome`, and the "Seed number invalid!" branch at line 114 is never taken |
| Recovery.OutcomeCases | ffx_hd_pc_manip_tool.py:108-116 | "Seed not found." happens exactly when no row shows the triple, and the outcome is never "Seed number invalid!" |
| Recovery.FoundByteRoundTrip | ffx_hd_pc_manip_tool.py:117-120 | a recovered byte is a byte that reproduces, from the same key, the seed of the first row showing the triple, and no smaller byte does |
| Recovery.UniqueMatchingByte | ffx_hd_pc_manip_tool.py:117-118 | for a key that is a byte, the only byte reproducing the seed of row i is `key ^ i` |
| Recovery.OutcomeForByteKey | ffx_hd_pc_manip_tool.py:108-123 | with a key that is a byte, every triple of the table yields a byte: the key mixed with the triple's first row |
| Recovery.PromptLoop | ffx_hd_pc_manip_tool.py:91-124 | the prompt loop stops at the first triple that yields a byte and returns that byte; every earlier triple failed |
| Recovery.RecoverMysteryByte | ffx_hd_pc_manip_tool.py:82-124 | the key is taken from the second after the press, and the prompt loop runs with it |
| Window.Recorded | ffx_hd_pc_manip_tool.py:170-184 | after n steps at most n seconds are recorded |
| Window.RecordedSound | ffx_hd_pc_manip_tool.py:182-184 | every recorded second belongs to a step whose test passed |
| Window.RecordedComplete | ffx_hd_pc_manip_tool.py:182-184 | the second of every passing step is recorded |
| Window.RecordedIncreasing | ffx_hd_pc_manip_tool.py:170-184 | steps in chronological order give a record in chronological order |
| Window.RecordedEmpty | ffx_hd_pc_manip_tool.py:185-199 | nothing is recorded exactly when no step passed |
| Window.Seconds | ffx_hd_pc_manip_tool.py:171-172 | the window's seconds: start + is, for i from 0 to n - 1 |
| Window.SecondsIncreasing | ffx_hd_pc_manip_tool.py:171-172 | the window's seconds are in chronological order |
| Window.Hits | ffx_hd_pc_manip_tool.py:182 | the test `target_seed == datetime_to_seed(xored_datetime)` at one second; `SearchSound` and `SearchComplete` show the search records exactly the seconds before those that pass it |
| Window.AdvanceHasKey | ffx_hd_pc_manip_tool.py:172-181 | every second the loop visits has a key |
| Window.HitFlags | ffx_hd_pc_manip_tool.py:175-182 | one test result per step of the window |
| Window.Search | ffx_hd_pc_manip_tool.py:169-184 | the loop records, in step order, `dt - 1s` for every stepped-to second dt whose key mixed with the byte hashes to the target |
| Window.SearchSound | ffx_hd_pc_manip_tool.py:169-184 | every recorded t lies in [start, start + 599s], and `datetime_to_seed(key(t + 1s) ^ byte)` is the target |
| Window.SearchComplete | ffx_hd_pc_manip_tool.py:171-184 | every t in [start, start + 599s] whose next second hits the target is recorded |
| Window.SearchIncreasing | ffx_hd_pc_manip_tool.py:169-184 | the recorded seconds are strictly increasing |
| Window.SearchEmpty | ffx_hd_pc_manip_tool.py:185-199 | the "Impossible to manip" outcome happens exactly when no second of the window hits the target |

## Left out

- `Clock` (a daemon thread with polling and a stop event) and `countdown` (a
  busy-wait on the wall clock with float seconds). These are concurrency and
  wall-clock timing, with no bearing on which seconds are computed.
- All `input()` and `print()` interaction and `strftime` formatting. The
  tool's reading of typed text is left out too: symbol replacement,
  `split`, and `int()` with its ValueError paths. The parsed triple, the
  typed seed number and the mystery byte are parameters instead.
- The checks that a triple has three values and that a typed byte lies in
  0..255 are left out with the parsing. `Window.Search` accepts any byte.
- The `datetime.now()` reads. The moment New Game was pressed and the
  window's start are parameters. The start is taken to be whole seconds, as
  `replace(microsecond=0)` makes it. The model has no microsecond field at
  all: microseconds never reach the key.
- The outer `while True` loops of `main` and `__main__`, and the restart
  after an impossible window. The model stops at the window's outcome.
- Recovery.PromptLoop: the source prompts for triples forever. The model
  runs through a finite sequence of them and reports running out.
- Calendar.AddSecond: years are unbounded. Python raises OverflowError when
  stepping past 9999-12-31 23:59:59.
- TimestampKey.Key: requires a year from 16 on. For years 1 to 15, `hex(year)[-2:]`
  is not two hexadecimal digits and Python raises ValueError. `YearByte`
  returns None for those years, as `TimestampKey.YearByteIsLowByte` states.
- TimestampKey.ParseHex: models `int(s, 16)` only on plain strings of digits.
  It does not model the extras Python's `int` accepts: signs, whitespace,
  underscores and the `0x` prefix. The year transform never passes those.
