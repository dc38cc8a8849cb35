/** The catalogue's literal rows, block by block: where each block sits in the
    table, that the seed in row i is `datetime_to_seed(i)`, and that the seeds
    strictly decrease down the table. */
module CatalogueRows {
  import opened SeedHash
  import opened KeySeeds
  import opened Catalogue

  lemma Block00Position(i: int)
    requires 0 <= i < 16
    ensures SeedsToDvs()[i] == Block00[i - 0]
  {
  }

  lemma Block00Seeds()
    ensures forall j :: 0 <= j < 16 ==> Block00[j].seed == DatetimeToSeed(0 + j)
  {
    SeedsOfKeys000To015();
  }

  lemma Block00Descending()
    ensures forall j :: 0 <= j < 15 ==> Block00[j].seed > Block00[j + 1].seed
    ensures Block00[15].seed > Block01[0].seed
  {
  }

  lemma Block01Position(i: int)
    requires 16 <= i < 32
    ensures SeedsToDvs()[i] == Block01[i - 16]
  {
  }

  lemma Block01Seeds()
    ensures forall j :: 0 <= j < 16 ==> Block01[j].seed == DatetimeToSeed(16 + j)
  {
    SeedsOfKeys016To031();
  }

  lemma Block01Descending()
    ensures forall j :: 0 <= j < 15 ==> Block01[j].seed > Block01[j + 1].seed
    ensures Block01[15].seed > Block02[0].seed
  {
  }

  lemma Block02Position(i: int)
    requires 32 <= i < 48
    ensures SeedsToDvs()[i] == Block02[i - 32]
  {
  }

  lemma Block02Seeds()
    ensures forall j :: 0 <= j < 16 ==> Block02[j].seed == DatetimeToSeed(32 + j)
  {
    SeedsOfKeys032To047();
  }

  lemma Block02Descending()
    ensures forall j :: 0 <= j < 15 ==> Block02[j].seed > Block02[j + 1].seed
    ensures Block02[15].seed > Block03[0].seed
  {
  }

  lemma Block03Position(i: int)
    requires 48 <= i < 64
    ensures SeedsToDvs()[i] == Block03[i - 48]
  {
  }

  lemma Block03Seeds()
    ensures forall j :: 0 <= j < 16 ==> Block03[j].seed == DatetimeToSeed(48 + j)
  {
    SeedsOfKeys048To063();
  }

  lemma Block03Descending()
    ensures forall j :: 0 <= j < 15 ==> Block03[j].seed > Block03[j + 1].seed
    ensures Block03[15].seed > Block04[0].seed
  {
  }

  lemma Block04Position(i: int)
    requires 64 <= i < 80
    ensures SeedsToDvs()[i] == Block04[i - 64]
  {
  }

  lemma Block04Seeds()
    ensures forall j :: 0 <= j < 16 ==> Block04[j].seed == DatetimeToSeed(64 + j)
  {
    SeedsOfKeys064To079();
  }

  lemma Block04Descending()
    ensures forall j :: 0 <= j < 15 ==> Block04[j].seed > Block04[j + 1].seed
    ensures Block04[15].seed > Block05[0].seed
  {
  }

  lemma Block05Position(i: int)
    requires 80 <= i < 96
    ensures SeedsToDvs()[i] == Block05[i - 80]
  {
  }

  lemma Block05Seeds()
    ensures forall j :: 0 <= j < 16 ==> Block05[j].seed == DatetimeToSeed(80 + j)
  {
    SeedsOfKeys080To095();
  }

  lemma Block05Descending()
    ensures forall j :: 0 <= j < 15 ==> Block05[j].seed > Block05[j + 1].seed
    ensures Block05[15].seed > Block06[0].seed
  {
  }

  lemma Block06Position(i: int)
    requires 96 <= i < 112
    ensures SeedsToDvs()[i] == Block06[i - 96]
  {
  }

  lemma Block06Seeds()
    ensures forall j :: 0 <= j < 16 ==> Block06[j].seed == DatetimeToSeed(96 + j)
  {
    SeedsOfKeys096To111();
  }

  lemma Block06Descending()
    ensures forall j :: 0 <= j < 15 ==> Block06[j].seed > Block06[j + 1].seed
    ensures Block06[15].seed > Block07[0].seed
  {
  }

  lemma Block07Position(i: int)
    requires 112 <= i < 128
    ensures SeedsToDvs()[i] == Block07[i - 112]
  {
  }

  lemma Block07Seeds()
    ensures forall j :: 0 <= j < 16 ==> Block07[j].seed == DatetimeToSeed(112 + j)
  {
    SeedsOfKeys112To127();
  }

  lemma Block07Descending()
    ensures forall j :: 0 <= j < 15 ==> Block07[j].seed > Block07[j + 1].seed
    ensures Block07[15].seed > Block08[0].seed
  {
  }

  lemma Block08Position(i: int)
    requires 128 <= i < 144
    ensures SeedsToDvs()[i] == Block08[i - 128]
  {
  }

  lemma Block08Seeds()
    ensures forall j :: 0 <= j < 16 ==> Block08[j].seed == DatetimeToSeed(128 + j)
  {
    SeedsOfKeys128To143();
  }

  lemma Block08Descending()
    ensures forall j :: 0 <= j < 15 ==> Block08[j].seed > Block08[j + 1].seed
    ensures Block08[15].seed > Block09[0].seed
  {
  }

  lemma Block09Position(i: int)
    requires 144 <= i < 160
    ensures SeedsToDvs()[i] == Block09[i - 144]
  {
  }

  lemma Block09Seeds()
    ensures forall j :: 0 <= j < 16 ==> Block09[j].seed == DatetimeToSeed(144 + j)
  {
    SeedsOfKeys144To159();
  }

  lemma Block09Descending()
    ensures forall j :: 0 <= j < 15 ==> Block09[j].seed > Block09[j + 1].seed
    ensures Block09[15].seed > Block10[0].seed
  {
  }

  lemma Block10Position(i: int)
    requires 160 <= i < 176
    ensures SeedsToDvs()[i] == Block10[i - 160]
  {
  }

  lemma Block10Seeds()
    ensures forall j :: 0 <= j < 16 ==> Block10[j].seed == DatetimeToSeed(160 + j)
  {
    SeedsOfKeys160To175();
  }

  lemma Block10Descending()
    ensures forall j :: 0 <= j < 15 ==> Block10[j].seed > Block10[j + 1].seed
    ensures Block10[15].seed > Block11[0].seed
  {
  }

  lemma Block11Position(i: int)
    requires 176 <= i < 192
    ensures SeedsToDvs()[i] == Block11[i - 176]
  {
  }

  lemma Block11Seeds()
    ensures forall j :: 0 <= j < 16 ==> Block11[j].seed == DatetimeToSeed(176 + j)
  {
    SeedsOfKeys176To191();
  }

  lemma Block11Descending()
    ensures forall j :: 0 <= j < 15 ==> Block11[j].seed > Block11[j + 1].seed
    ensures Block11[15].seed > Block12[0].seed
  {
  }

  lemma Block12Position(i: int)
    requires 192 <= i < 208
    ensures SeedsToDvs()[i] == Block12[i - 192]
  {
  }

  lemma Block12Seeds()
    ensures forall j :: 0 <= j < 16 ==> Block12[j].seed == DatetimeToSeed(192 + j)
  {
    SeedsOfKeys192To207();
  }

  lemma Block12Descending()
    ensures forall j :: 0 <= j < 15 ==> Block12[j].seed > Block12[j + 1].seed
    ensures Block12[15].seed > Block13[0].seed
  {
  }

  lemma Block13Position(i: int)
    requires 208 <= i < 224
    ensures SeedsToDvs()[i] == Block13[i - 208]
  {
  }

  lemma Block13Seeds()
    ensures forall j :: 0 <= j < 16 ==> Block13[j].seed == DatetimeToSeed(208 + j)
  {
    SeedsOfKeys208To223();
  }

  lemma Block13Descending()
    ensures forall j :: 0 <= j < 15 ==> Block13[j].seed > Block13[j + 1].seed
    ensures Block13[15].seed > Block14[0].seed
  {
  }

  lemma Block14Position(i: int)
    requires 224 <= i < 240
    ensures SeedsToDvs()[i] == Block14[i - 224]
  {
  }

  lemma Block14Seeds()
    ensures forall j :: 0 <= j < 16 ==> Block14[j].seed == DatetimeToSeed(224 + j)
  {
    SeedsOfKeys224To239();
  }

  lemma Block14Descending()
    ensures forall j :: 0 <= j < 15 ==> Block14[j].seed > Block14[j + 1].seed
    ensures Block14[15].seed > Block15[0].seed
  {
  }

  lemma Block15Position(i: int)
    requires 240 <= i < 256
    ensures SeedsToDvs()[i] == Block15[i - 240]
  {
  }

  lemma Block15Seeds()
    ensures forall j :: 0 <= j < 16 ==> Block15[j].seed == DatetimeToSeed(240 + j)
  {
    SeedsOfKeys240To255();
  }

  lemma Block15Descending()
    ensures forall j :: 0 <= j < 15 ==> Block15[j].seed > Block15[j + 1].seed
    ensures Block15[15].seed > 255
  {
  }

  /** The seed in row i of the table is `datetime_to_seed(i)`. */
  lemma SeedIsHashOfIndex(i: int)
    requires 0 <= i < |SeedsToDvs()|
    ensures SeedsToDvs()[i].seed == DatetimeToSeed(i)
  {
    if i < 16 {
      Block00Position(i);
      Block00Seeds();
    } else if i < 32 {
      Block01Position(i);
      Block01Seeds();
    } else if i < 48 {
      Block02Position(i);
      Block02Seeds();
    } else if i < 64 {
      Block03Position(i);
      Block03Seeds();
    } else if i < 80 {
      Block04Position(i);
      Block04Seeds();
    } else if i < 96 {
      Block05Position(i);
      Block05Seeds();
    } else if i < 112 {
      Block06Position(i);
      Block06Seeds();
    } else if i < 128 {
      Block07Position(i);
      Block07Seeds();
    } else if i < 144 {
      Block08Position(i);
      Block08Seeds();
    } else if i < 160 {
      Block09Position(i);
      Block09Seeds();
    } else if i < 176 {
      Block10Position(i);
      Block10Seeds();
    } else if i < 192 {
      Block11Position(i);
      Block11Seeds();
    } else if i < 208 {
      Block12Position(i);
      Block12Seeds();
    } else if i < 224 {
      Block13Position(i);
      Block13Seeds();
    } else if i < 240 {
      Block14Position(i);
      Block14Seeds();
    } else {
      Block15Position(i);
      Block15Seeds();
    }
  }

  /** Each seed of the table is larger than the next one. */
  lemma SeedDescendsAt(i: int)
    requires 0 <= i < |SeedsToDvs()| - 1
    ensures SeedsToDvs()[i].seed > SeedsToDvs()[i + 1].seed
  {
    if i < 15 {
      Block00Position(i);
      Block00Position(i + 1);
      Block00Descending();
    } else if i == 15 {
      Block00Position(i);
      Block01Position(i + 1);
      Block00Descending();
    } else if i < 31 {
      Block01Position(i);
      Block01Position(i + 1);
      Block01Descending();
    } else if i == 31 {
      Block01Position(i);
      Block02Position(i + 1);
      Block01Descending();
    } else if i < 47 {
      Block02Position(i);
      Block02Position(i + 1);
      Block02Descending();
    } else if i == 47 {
      Block02Position(i);
      Block03Position(i + 1);
      Block02Descending();
    } else if i < 63 {
      Block03Position(i);
      Block03Position(i + 1);
      Block03Descending();
    } else if i == 63 {
      Block03Position(i);
      Block04Position(i + 1);
      Block03Descending();
    } else if i < 79 {
      Block04Position(i);
      Block04Position(i + 1);
      Block04Descending();
    } else if i == 79 {
      Block04Position(i);
      Block05Position(i + 1);
      Block04Descending();
    } else if i < 95 {
      Block05Position(i);
      Block05Position(i + 1);
      Block05Descending();
    } else if i == 95 {
      Block05Position(i);
      Block06Position(i + 1);
      Block05Descending();
    } else if i < 111 {
      Block06Position(i);
      Block06Position(i + 1);
      Block06Descending();
    } else if i == 111 {
      Block06Position(i);
      Block07Position(i + 1);
      Block06Descending();
    } else if i < 127 {
      Block07Position(i);
      Block07Position(i + 1);
      Block07Descending();
    } else if i == 127 {
      Block07Position(i);
      Block08Position(i + 1);
      Block07Descending();
    } else if i < 143 {
      Block08Position(i);
      Block08Position(i + 1);
      Block08Descending();
    } else if i == 143 {
      Block08Position(i);
      Block09Position(i + 1);
      Block08Descending();
    } else if i < 159 {
      Block09Position(i);
      Block09Position(i + 1);
      Block09Descending();
    } else if i == 159 {
      Block09Position(i);
      Block10Position(i + 1);
      Block09Descending();
    } else if i < 175 {
      Block10Position(i);
      Block10Position(i + 1);
      Block10Descending();
    } else if i == 175 {
      Block10Position(i);
      Block11Position(i + 1);
      Block10Descending();
    } else if i < 191 {
      Block11Position(i);
      Block11Position(i + 1);
      Block11Descending();
    } else if i == 191 {
      Block11Position(i);
      Block12Position(i + 1);
      Block11Descending();
    } else if i < 207 {
      Block12Position(i);
      Block12Position(i + 1);
      Block12Descending();
    } else if i == 207 {
      Block12Position(i);
      Block13Position(i + 1);
      Block12Descending();
    } else if i < 223 {
      Block13Position(i);
      Block13Position(i + 1);
      Block13Descending();
    } else if i == 223 {
      Block13Position(i);
      Block14Position(i + 1);
      Block13Descending();
    } else if i < 239 {
      Block14Position(i);
      Block14Position(i + 1);
      Block14Descending();
    } else if i == 239 {
      Block14Position(i);
      Block15Position(i + 1);
      Block14Descending();
    } else {
      Block15Position(i);
      Block15Position(i + 1);
      Block15Descending();
    }
  }

  /** The last seed of the table, and so every seed, exceeds 255. */
  lemma LastSeedAbove255()
    ensures |SeedsToDvs()| == CatalogueSize
    ensures SeedsToDvs()[CatalogueSize - 1].seed > 255
  {
    Block15Position(255);
    Block15Descending();
  }
}
