/** The formula evaluated on every key from 0 to 255, sixteen keys at a time.
    Each call gives the verifier the value of every wrap of one evaluation. */
module KeySeeds {
  import opened Int32
  import opened SeedHash

  lemma SeedsOfKeys000To015()
    ensures DatetimeToSeed(0) == 3556394350
    ensures DatetimeToSeed(1) == 3553426523
    ensures DatetimeToSeed(2) == 3550458696
    ensures DatetimeToSeed(3) == 3547556405
    ensures DatetimeToSeed(4) == 3544588578
    ensures DatetimeToSeed(5) == 3541620751
    ensures DatetimeToSeed(6) == 3538652924
    ensures DatetimeToSeed(7) == 3535750633
    ensures DatetimeToSeed(8) == 3532782806
    ensures DatetimeToSeed(9) == 3529814979
    ensures DatetimeToSeed(10) == 3526912688
    ensures DatetimeToSeed(11) == 3523944861
    ensures DatetimeToSeed(12) == 3520977034
    ensures DatetimeToSeed(13) == 3518009207
    ensures DatetimeToSeed(14) == 3515106916
    ensures DatetimeToSeed(15) == 3512139089
  {
    SeedFromRounds(0, 1, 1108104919, 1108116705, 1164875717, 1164891130, 17774, -738590720, -738572946);
    SeedFromRounds(1, 2, -2078757458, -2078745672, -61106280, -61090867, -933, -741539840, -741540773);
    SeedFromRounds(2, 3, -970652539, -970640753, -1287088277, -1287072864, -19640, -744488960, -744508600);
    SeedFromRounds(3, 4, 137452380, 137464166, 1781897022, 1781912435, 27189, -747438080, -747410891);
    SeedFromRounds(4, 5, 1245557299, 1245569085, 555915025, 555930438, 8482, -750387200, -750378718);
    SeedFromRounds(5, 6, -1941305078, -1941293292, -670066972, -670051559, -10225, -753336320, -753346545);
    SeedFromRounds(6, 7, -833200159, -833188373, -1896048969, -1896033556, -28932, -756285440, -756314372);
    SeedFromRounds(7, 8, 274904760, 274916546, 1172936330, 1172951743, 17897, -759234560, -759216663);
    SeedFromRounds(8, 9, 1383009679, 1383021465, -53045667, -53030254, -810, -762183680, -762184490);
    SeedFromRounds(9, 10, -1803852698, -1803840912, -1279027664, -1279012251, -19517, -765132800, -765152317);
    SeedFromRounds(10, 11, -695747779, -695735993, 1789957635, 1789973048, 27312, -768081920, -768054608);
    SeedFromRounds(11, 12, 412357140, 412368926, 563975638, 563991051, 8605, -771031040, -771022435);
    SeedFromRounds(12, 13, 1520462059, 1520473845, -662006359, -661990946, -10102, -773980160, -773990262);
    SeedFromRounds(13, 14, -1666400318, -1666388532, -1887988356, -1887972943, -28809, -776929280, -776958089);
    SeedFromRounds(14, 15, -558295399, -558283613, 1180996943, 1181012356, 18020, -779878400, -779860380);
    SeedFromRounds(15, 16, 549809520, 549821306, -44985054, -44969641, -687, -782827520, -782828207);
  }

  lemma SeedsOfKeys016To031()
    ensures DatetimeToSeed(16) == 3509171262
    ensures DatetimeToSeed(17) == 3506268971
    ensures DatetimeToSeed(18) == 3503301144
    ensures DatetimeToSeed(19) == 3500333317
    ensures DatetimeToSeed(20) == 3497365490
    ensures DatetimeToSeed(21) == 3494463199
    ensures DatetimeToSeed(22) == 3491495372
    ensures DatetimeToSeed(23) == 3488527545
    ensures DatetimeToSeed(24) == 3485625254
    ensures DatetimeToSeed(25) == 3482657427
    ensures DatetimeToSeed(26) == 3479689600
    ensures DatetimeToSeed(27) == 3476721773
    ensures DatetimeToSeed(28) == 3473819482
    ensures DatetimeToSeed(29) == 3470851655
    ensures DatetimeToSeed(30) == 3467883828
    ensures DatetimeToSeed(31) == 3464981537
  {
    SeedFromRounds(16, 17, 1657914439, 1657926225, -1270967051, -1270951638, -19394, -785776640, -785796034);
    SeedFromRounds(17, 18, -1528947938, -1528936152, 1798018248, 1798033661, 27435, -788725760, -788698325);
    SeedFromRounds(18, 19, -420843019, -420831233, 572036251, 572051664, 8728, -791674880, -791666152);
    SeedFromRounds(19, 20, 687261900, 687273686, -653945746, -653930333, -9979, -794624000, -794633979);
    SeedFromRounds(20, 21, 1795366819, 1795378605, -1879927743, -1879912330, -28686, -797573120, -797601806);
    SeedFromRounds(21, 22, -1391495558, -1391483772, 1189057556, 1189072969, 18143, -800522240, -800504097);
    SeedFromRounds(22, 23, -283390639, -283378853, -36924441, -36909028, -564, -803471360, -803471924);
    SeedFromRounds(23, 24, 824714280, 824726066, -1262906438, -1262891025, -19271, -806420480, -806439751);
    SeedFromRounds(24, 25, 1932819199, 1932830985, 1806078861, 1806094274, 27558, -809369600, -809342042);
    SeedFromRounds(25, 26, -1254043178, -1254031392, 580096864, 580112277, 8851, -812318720, -812309869);
    SeedFromRounds(26, 27, -145938259, -145926473, -645885133, -645869720, -9856, -815267840, -815277696);
    SeedFromRounds(27, 28, 962166660, 962178446, -1871867130, -1871851717, -28563, -818216960, -818245523);
    SeedFromRounds(28, 29, 2070271579, 2070283365, 1197118169, 1197133582, 18266, -821166080, -821147814);
    SeedFromRounds(29, 30, -1116590798, -1116579012, -28863828, -28848415, -441, -824115200, -824115641);
    SeedFromRounds(30, 31, -8485879, -8474093, -1254845825, -1254830412, -19148, -827064320, -827083468);
    SeedFromRounds(31, 32, 1099619040, 1099630826, 1814139474, 1814154887, 27681, -830013440, -829985759);
  }

  lemma SeedsOfKeys032To047()
    ensures DatetimeToSeed(32) == 3462013710
    ensures DatetimeToSeed(33) == 3459045883
    ensures DatetimeToSeed(34) == 3456078056
    ensures DatetimeToSeed(35) == 3453175765
    ensures DatetimeToSeed(36) == 3450207938
    ensures DatetimeToSeed(37) == 3447240111
    ensures DatetimeToSeed(38) == 3444337820
    ensures DatetimeToSeed(39) == 3441369993
    ensures DatetimeToSeed(40) == 3438402166
    ensures DatetimeToSeed(41) == 3435434339
    ensures DatetimeToSeed(42) == 3432532048
    ensures DatetimeToSeed(43) == 3429564221
    ensures DatetimeToSeed(44) == 3426596394
    ensures DatetimeToSeed(45) == 3423694103
    ensures DatetimeToSeed(46) == 3420726276
    ensures DatetimeToSeed(47) == 3417758449
  {
    SeedFromRounds(32, 33, -2087243337, -2087231551, 588157477, 588172890, 8974, -832962560, -832953586);
    SeedFromRounds(33, 34, -979138418, -979126632, -637824520, -637809107, -9733, -835911680, -835921413);
    SeedFromRounds(34, 35, 128966501, 128978287, -1863806517, -1863791104, -28440, -838860800, -838889240);
    SeedFromRounds(35, 36, 1237071420, 1237083206, 1205178782, 1205194195, 18389, -841809920, -841791531);
    SeedFromRounds(36, 37, -1949790957, -1949779171, -20803215, -20787802, -318, -844759040, -844759358);
    SeedFromRounds(37, 38, -841686038, -841674252, -1246785212, -1246769799, -19025, -847708160, -847727185);
    SeedFromRounds(38, 39, 266418881, 266430667, 1822200087, 1822215500, 27804, -850657280, -850629476);
    SeedFromRounds(39, 40, 1374523800, 1374535586, 596218090, 596233503, 9097, -853606400, -853597303);
    SeedFromRounds(40, 41, -1812338577, -1812326791, -629763907, -629748494, -9610, -856555520, -856565130);
    SeedFromRounds(41, 42, -704233658, -704221872, -1855745904, -1855730491, -28317, -859504640, -859532957);
    SeedFromRounds(42, 43, 403871261, 403883047, 1213239395, 1213254808, 18512, -862453760, -862435248);
    SeedFromRounds(43, 44, 1511976180, 1511987966, -12742602, -12727189, -195, -865402880, -865403075);
    SeedFromRounds(44, 45, -1674886197, -1674874411, -1238724599, -1238709186, -18902, -868352000, -868370902);
    SeedFromRounds(45, 46, -566781278, -566769492, 1830260700, 1830276113, 27927, -871301120, -871273193);
    SeedFromRounds(46, 47, 541323641, 541335427, 604278703, 604294116, 9220, -874250240, -874241020);
    SeedFromRounds(47, 48, 1649428560, 1649440346, -621703294, -621687881, -9487, -877199360, -877208847);
  }

  lemma SeedsOfKeys048To063()
    ensures DatetimeToSeed(48) == 3414790622
    ensures DatetimeToSeed(49) == 3411888331
    ensures DatetimeToSeed(50) == 3408920504
    ensures DatetimeToSeed(51) == 3405952677
    ensures DatetimeToSeed(52) == 3403050386
    ensures DatetimeToSeed(53) == 3400082559
    ensures DatetimeToSeed(54) == 3397114732
    ensures DatetimeToSeed(55) == 3394146905
    ensures DatetimeToSeed(56) == 3391244614
    ensures DatetimeToSeed(57) == 3388276787
    ensures DatetimeToSeed(58) == 3385308960
    ensures DatetimeToSeed(59) == 3382406669
    ensures DatetimeToSeed(60) == 3379438842
    ensures DatetimeToSeed(61) == 3376471015
    ensures DatetimeToSeed(62) == 3373503188
    ensures DatetimeToSeed(63) == 3370600897
  {
    SeedFromRounds(48, 49, -1537433817, -1537422031, -1847685291, -1847669878, -28194, -880148480, -880176674);
    SeedFromRounds(49, 50, -429328898, -429317112, 1221300008, 1221315421, 18635, -883097600, -883078965);
    SeedFromRounds(50, 51, 678776021, 678787807, -4681989, -4666576, -72, -886046720, -886046792);
    SeedFromRounds(51, 52, 1786880940, 1786892726, -1230663986, -1230648573, -18779, -888995840, -889014619);
    SeedFromRounds(52, 53, -1399981437, -1399969651, 1838321313, 1838336726, 28050, -891944960, -891916910);
    SeedFromRounds(53, 54, -291876518, -291864732, 612339316, 612354729, 9343, -894894080, -894884737);
    SeedFromRounds(54, 55, 816228401, 816240187, -613642681, -613627268, -9364, -897843200, -897852564);
    SeedFromRounds(55, 56, 1924333320, 1924345106, -1839624678, -1839609265, -28071, -900792320, -900820391);
    SeedFromRounds(56, 57, -1262529057, -1262517271, 1229360621, 1229376034, 18758, -903741440, -903722682);
    SeedFromRounds(57, 58, -154424138, -154412352, 3378624, 3394037, 51, -906690560, -906690509);
    SeedFromRounds(58, 59, 953680781, 953692567, -1222603373, -1222587960, -18656, -909639680, -909658336);
    SeedFromRounds(59, 60, 2061785700, 2061797486, 1846381926, 1846397339, 28173, -912588800, -912560627);
    SeedFromRounds(60, 61, -1125076677, -1125064891, 620399929, 620415342, 9466, -915537920, -915528454);
    SeedFromRounds(61, 62, -16971758, -16959972, -605582068, -605566655, -9241, -918487040, -918496281);
    SeedFromRounds(62, 63, 1091133161, 1091144947, -1831564065, -1831548652, -27948, -921436160, -921464108);
    SeedFromRounds(63, 64, -2095729216, -2095717430, 1237421234, 1237436647, 18881, -924385280, -924366399);
  }

  lemma SeedsOfKeys064To079()
    ensures DatetimeToSeed(64) == 3367633070
    ensures DatetimeToSeed(65) == 3364665243
    ensures DatetimeToSeed(66) == 3361762952
    ensures DatetimeToSeed(67) == 3358795125
    ensures DatetimeToSeed(68) == 3355827298
    ensures DatetimeToSeed(69) == 3352859471
    ensures DatetimeToSeed(70) == 3349957180
    ensures DatetimeToSeed(71) == 3346989353
    ensures DatetimeToSeed(72) == 3344021526
    ensures DatetimeToSeed(73) == 3341119235
    ensures DatetimeToSeed(74) == 3338151408
    ensures DatetimeToSeed(75) == 3335183581
    ensures DatetimeToSeed(76) == 3332215754
    ensures DatetimeToSeed(77) == 3329313463
    ensures DatetimeToSeed(78) == 3326345636
    ensures DatetimeToSeed(79) == 3323377809
  {
    SeedFromRounds(64, 65, -987624297, -987612511, 11439237, 11454650, 174, -927334400, -927334226);
    SeedFromRounds(65, 66, 120480622, 120492408, -1214542760, -1214527347, -18533, -930283520, -930302053);
    SeedFromRounds(66, 67, 1228585541, 1228597327, 1854442539, 1854457952, 28296, -933232640, -933204344);
    SeedFromRounds(67, 68, -1958276836, -1958265050, 628460542, 628475955, 9589, -936181760, -936172171);
    SeedFromRounds(68, 69, -850171917, -850160131, -597521455, -597506042, -9118, -939130880, -939139998);
    SeedFromRounds(69, 70, 257933002, 257944788, -1823503452, -1823488039, -27825, -942080000, -942107825);
    SeedFromRounds(70, 71, 1366037921, 1366049707, 1245481847, 1245497260, 19004, -945029120, -945010116);
    SeedFromRounds(71, 72, -1820824456, -1820812670, 19499850, 19515263, 297, -947978240, -947977943);
    SeedFromRounds(72, 73, -712719537, -712707751, -1206482147, -1206466734, -18410, -950927360, -950945770);
    SeedFromRounds(73, 74, 395385382, 395397168, 1862503152, 1862518565, 28419, -953876480, -953848061);
    SeedFromRounds(74, 75, 1503490301, 1503502087, 636521155, 636536568, 9712, -956825600, -956815888);
    SeedFromRounds(75, 76, -1683372076, -1683360290, -589460842, -589445429, -8995, -959774720, -959783715);
    SeedFromRounds(76, 77, -575267157, -575255371, -1815442839, -1815427426, -27702, -962723840, -962751542);
    SeedFromRounds(77, 78, 532837762, 532849548, 1253542460, 1253557873, 19127, -965672960, -965653833);
    SeedFromRounds(78, 79, 1640942681, 1640954467, 27560463, 27575876, 420, -968622080, -968621660);
    SeedFromRounds(79, 80, -1545919696, -1545907910, -1198421534, -1198406121, -18287, -971571200, -971589487);
  }

  lemma SeedsOfKeys080To095()
    ensures DatetimeToSeed(80) == 3320475518
    ensures DatetimeToSeed(81) == 3317507691
    ensures DatetimeToSeed(82) == 3314539864
    ensures DatetimeToSeed(83) == 3311572037
    ensures DatetimeToSeed(84) == 3308669746
    ensures DatetimeToSeed(85) == 3305701919
    ensures DatetimeToSeed(86) == 3302734092
    ensures DatetimeToSeed(87) == 3299831801
    ensures DatetimeToSeed(88) == 3296863974
    ensures DatetimeToSeed(89) == 3293896147
    ensures DatetimeToSeed(90) == 3290928320
    ensures DatetimeToSeed(91) == 3288026029
    ensures DatetimeToSeed(92) == 3285058202
    ensures DatetimeToSeed(93) == 3282090375
    ensures DatetimeToSeed(94) == 3279188084
    ensures DatetimeToSeed(95) == 3276220257
  {
    SeedFromRounds(80, 81, -437814777, -437802991, 1870563765, 1870579178, 28542, -974520320, -974491778);
    SeedFromRounds(81, 82, 670290142, 670301928, 644581768, 644597181, 9835, -977469440, -977459605);
    SeedFromRounds(82, 83, 1778395061, 1778406847, -581400229, -581384816, -8872, -980418560, -980427432);
    SeedFromRounds(83, 84, -1408467316, -1408455530, -1807382226, -1807366813, -27579, -983367680, -983395259);
    SeedFromRounds(84, 85, -300362397, -300350611, 1261603073, 1261618486, 19250, -986316800, -986297550);
    SeedFromRounds(85, 86, 807742522, 807754308, 35621076, 35636489, 543, -989265920, -989265377);
    SeedFromRounds(86, 87, 1915847441, 1915859227, -1190360921, -1190345508, -18164, -992215040, -992233204);
    SeedFromRounds(87, 88, -1271014936, -1271003150, 1878624378, 1878639791, 28665, -995164160, -995135495);
    SeedFromRounds(88, 89, -162910017, -162898231, 652642381, 652657794, 9958, -998113280, -998103322);
    SeedFromRounds(89, 90, 945194902, 945206688, -573339616, -573324203, -8749, -1001062400, -1001071149);
    SeedFromRounds(90, 91, 2053299821, 2053311607, -1799321613, -1799306200, -27456, -1004011520, -1004038976);
    SeedFromRounds(91, 92, -1133562556, -1133550770, 1269663686, 1269679099, 19373, -1006960640, -1006941267);
    SeedFromRounds(92, 93, -25457637, -25445851, 43681689, 43697102, 666, -1009909760, -1009909094);
    SeedFromRounds(93, 94, 1082647282, 1082659068, -1182300308, -1182284895, -18041, -1012858880, -1012876921);
    SeedFromRounds(94, 95, -2104215095, -2104203309, 1886684991, 1886700404, 28788, -1015808000, -1015779212);
    SeedFromRounds(95, 96, -996110176, -996098390, 660702994, 660718407, 10081, -1018757120, -1018747039);
  }

  lemma SeedsOfKeys096To111()
    ensures DatetimeToSeed(96) == 3273252430
    ensures DatetimeToSeed(97) == 3270284603
    ensures DatetimeToSeed(98) == 3267382312
    ensures DatetimeToSeed(99) == 3264414485
    ensures DatetimeToSeed(100) == 3261446658
    ensures DatetimeToSeed(101) == 3258544367
    ensures DatetimeToSeed(102) == 3255576540
    ensures DatetimeToSeed(103) == 3252608713
    ensures DatetimeToSeed(104) == 3249640886
    ensures DatetimeToSeed(105) == 3246738595
    ensures DatetimeToSeed(106) == 3243770768
    ensures DatetimeToSeed(107) == 3240802941
    ensures DatetimeToSeed(108) == 3237900650
    ensures DatetimeToSeed(109) == 3234932823
    ensures DatetimeToSeed(110) == 3231964996
    ensures DatetimeToSeed(111) == 3228997169
  {
    SeedFromRounds(96, 97, 111994743, 112006529, -565279003, -565263590, -8626, -1021706240, -1021714866);
    SeedFromRounds(97, 98, 1220099662, 1220111448, -1791261000, -1791245587, -27333, -1024655360, -1024682693);
    SeedFromRounds(98, 99, -1966762715, -1966750929, 1277724299, 1277739712, 19496, -1027604480, -1027584984);
    SeedFromRounds(99, 100, -858657796, -858646010, 51742302, 51757715, 789, -1030553600, -1030552811);
    SeedFromRounds(100, 101, 249447123, 249458909, -1174239695, -1174224282, -17918, -1033502720, -1033520638);
    SeedFromRounds(101, 102, 1357552042, 1357563828, 1894745604, 1894761017, 28911, -1036451840, -1036422929);
    SeedFromRounds(102, 103, -1829310335, -1829298549, 668763607, 668779020, 10204, -1039400960, -1039390756);
    SeedFromRounds(103, 104, -721205416, -721193630, -557218390, -557202977, -8503, -1042350080, -1042358583);
    SeedFromRounds(104, 105, 386899503, 386911289, -1783200387, -1783184974, -27210, -1045299200, -1045326410);
    SeedFromRounds(105, 106, 1495004422, 1495016208, 1285784912, 1285800325, 19619, -1048248320, -1048228701);
    SeedFromRounds(106, 107, -1691857955, -1691846169, 59802915, 59818328, 912, -1051197440, -1051196528);
    SeedFromRounds(107, 108, -583753036, -583741250, -1166179082, -1166163669, -17795, -1054146560, -1054164355);
    SeedFromRounds(108, 109, 524351883, 524363669, 1902806217, 1902821630, 29034, -1057095680, -1057066646);
    SeedFromRounds(109, 110, 1632456802, 1632468588, 676824220, 676839633, 10327, -1060044800, -1060034473);
    SeedFromRounds(110, 111, -1554405575, -1554393789, -549157777, -549142364, -8380, -1062993920, -1063002300);
    SeedFromRounds(111, 112, -446300656, -446288870, -1775139774, -1775124361, -27087, -1065943040, -1065970127);
  }

  lemma SeedsOfKeys112To127()
    ensures DatetimeToSeed(112) == 3226094878
    ensures DatetimeToSeed(113) == 3223127051
    ensures DatetimeToSeed(114) == 3220159224
    ensures DatetimeToSeed(115) == 3217256933
    ensures DatetimeToSeed(116) == 3214289106
    ensures DatetimeToSeed(117) == 3211321279
    ensures DatetimeToSeed(118) == 3208353452
    ensures DatetimeToSeed(119) == 3205451161
    ensures DatetimeToSeed(120) == 3202483334
    ensures DatetimeToSeed(121) == 3199515507
    ensures DatetimeToSeed(122) == 3196613216
    ensures DatetimeToSeed(123) == 3193645389
    ensures DatetimeToSeed(124) == 3190677562
    ensures DatetimeToSeed(125) == 3187709735
    ensures DatetimeToSeed(126) == 3184807444
    ensures DatetimeToSeed(127) == 3181839617
  {
    SeedFromRounds(112, 113, 661804263, 661816049, 1293845525, 1293860938, 19742, -1068892160, -1068872418);
    SeedFromRounds(113, 114, 1769909182, 1769920968, 67863528, 67878941, 1035, -1071841280, -1071840245);
    SeedFromRounds(114, 115, -1416953195, -1416941409, -1158118469, -1158103056, -17672, -1074790400, -1074808072);
    SeedFromRounds(115, 116, -308848276, -308836490, 1910866830, 1910882243, 29157, -1077739520, -1077710363);
    SeedFromRounds(116, 117, 799256643, 799268429, 684884833, 684900246, 10450, -1080688640, -1080678190);
    SeedFromRounds(117, 118, 1907361562, 1907373348, -541097164, -541081751, -8257, -1083637760, -1083646017);
    SeedFromRounds(118, 119, -1279500815, -1279489029, -1767079161, -1767063748, -26964, -1086586880, -1086613844);
    SeedFromRounds(119, 120, -171395896, -171384110, 1301906138, 1301921551, 19865, -1089536000, -1089516135);
    SeedFromRounds(120, 121, 936709023, 936720809, 75924141, 75939554, 1158, -1092485120, -1092483962);
    SeedFromRounds(121, 122, 2044813942, 2044825728, -1150057856, -1150042443, -17549, -1095434240, -1095451789);
    SeedFromRounds(122, 123, -1142048435, -1142036649, 1918927443, 1918942856, 29280, -1098383360, -1098354080);
    SeedFromRounds(123, 124, -33943516, -33931730, 692945446, 692960859, 10573, -1101332480, -1101321907);
    SeedFromRounds(124, 125, 1074161403, 1074173189, -533036551, -533021138, -8134, -1104281600, -1104289734);
    SeedFromRounds(125, 126, -2112700974, -2112689188, -1759018548, -1759003135, -26841, -1107230720, -1107257561);
    SeedFromRounds(126, 127, -1004596055, -1004584269, 1309966751, 1309982164, 19988, -1110179840, -1110159852);
    SeedFromRounds(127, 128, 103508864, 103520650, 83984754, 84000167, 1281, -1113128960, -1113127679);
  }

  lemma SeedsOfKeys128To143()
    ensures DatetimeToSeed(128) == 3178871790
    ensures DatetimeToSeed(129) == 3175969499
    ensures DatetimeToSeed(130) == 3173001672
    ensures DatetimeToSeed(131) == 3170033845
    ensures DatetimeToSeed(132) == 3167066018
    ensures DatetimeToSeed(133) == 3164163727
    ensures DatetimeToSeed(134) == 3161195900
    ensures DatetimeToSeed(135) == 3158228073
    ensures DatetimeToSeed(136) == 3155325782
    ensures DatetimeToSeed(137) == 3152357955
    ensures DatetimeToSeed(138) == 3149390128
    ensures DatetimeToSeed(139) == 3146422301
    ensures DatetimeToSeed(140) == 3143520010
    ensures DatetimeToSeed(141) == 3140552183
    ensures DatetimeToSeed(142) == 3137584356
    ensures DatetimeToSeed(143) == 3134682065
  {
    SeedFromRounds(128, 129, 1211613783, 1211625569, -1141997243, -1141981830, -17426, -1116078080, -1116095506);
    SeedFromRounds(129, 130, -1975248594, -1975236808, 1926988056, 1927003469, 29403, -1119027200, -1118997797);
    SeedFromRounds(130, 131, -867143675, -867131889, 701006059, 701021472, 10696, -1121976320, -1121965624);
    SeedFromRounds(131, 132, 240961244, 240973030, -524975938, -524960525, -8011, -1124925440, -1124933451);
    SeedFromRounds(132, 133, 1349066163, 1349077949, -1750957935, -1750942522, -26718, -1127874560, -1127901278);
    SeedFromRounds(133, 134, -1837796214, -1837784428, 1318027364, 1318042777, 20111, -1130823680, -1130803569);
    SeedFromRounds(134, 135, -729691295, -729679509, 92045367, 92060780, 1404, -1133772800, -1133771396);
    SeedFromRounds(135, 136, 378413624, 378425410, -1133936630, -1133921217, -17303, -1136721920, -1136739223);
    SeedFromRounds(136, 137, 1486518543, 1486530329, 1935048669, 1935064082, 29526, -1139671040, -1139641514);
    SeedFromRounds(137, 138, -1700343834, -1700332048, 709066672, 709082085, 10819, -1142620160, -1142609341);
    SeedFromRounds(138, 139, -592238915, -592227129, -516915325, -516899912, -7888, -1145569280, -1145577168);
    SeedFromRounds(139, 140, 515866004, 515877790, -1742897322, -1742881909, -26595, -1148518400, -1148544995);
    SeedFromRounds(140, 141, 1623970923, 1623982709, 1326087977, 1326103390, 20234, -1151467520, -1151447286);
    SeedFromRounds(141, 142, -1562891454, -1562879668, 100105980, 100121393, 1527, -1154416640, -1154415113);
    SeedFromRounds(142, 143, -454786535, -454774749, -1125876017, -1125860604, -17180, -1157365760, -1157382940);
    SeedFromRounds(143, 144, 653318384, 653330170, 1943109282, 1943124695, 29649, -1160314880, -1160285231);
  }

  lemma SeedsOfKeys144To159()
    ensures DatetimeToSeed(144) == 3131714238
    ensures DatetimeToSeed(145) == 3128746411
    ensures DatetimeToSeed(146) == 3125778584
    ensures DatetimeToSeed(147) == 3122876293
    ensures DatetimeToSeed(148) == 3119908466
    ensures DatetimeToSeed(149) == 3116940639
    ensures DatetimeToSeed(150) == 3114038348
    ensures DatetimeToSeed(151) == 3111070521
    ensures DatetimeToSeed(152) == 3108102694
    ensures DatetimeToSeed(153) == 3105134867
    ensures DatetimeToSeed(154) == 3102232576
    ensures DatetimeToSeed(155) == 3099264749
    ensures DatetimeToSeed(156) == 3096296922
    ensures DatetimeToSeed(157) == 3093394631
    ensures DatetimeToSeed(158) == 3090426804
    ensures DatetimeToSeed(159) == 3087458977
  {
    SeedFromRounds(144, 145, 1761423303, 1761435089, 717127285, 717142698, 10942, -1163264000, -1163253058);
    SeedFromRounds(145, 146, -1425439074, -1425427288, -508854712, -508839299, -7765, -1166213120, -1166220885);
    SeedFromRounds(146, 147, -317334155, -317322369, -1734836709, -1734821296, -26472, -1169162240, -1169188712);
    SeedFromRounds(147, 148, 790770764, 790782550, 1334148590, 1334164003, 20357, -1172111360, -1172091003);
    SeedFromRounds(148, 149, 1898875683, 1898887469, 108166593, 108182006, 1650, -1175060480, -1175058830);
    SeedFromRounds(149, 150, -1287986694, -1287974908, -1117815404, -1117799991, -17057, -1178009600, -1178026657);
    SeedFromRounds(150, 151, -179881775, -179869989, 1951169895, 1951185308, 29772, -1180958720, -1180928948);
    SeedFromRounds(151, 152, 928223144, 928234930, 725187898, 725203311, 11065, -1183907840, -1183896775);
    SeedFromRounds(152, 153, 2036328063, 2036339849, -500794099, -500778686, -7642, -1186856960, -1186864602);
    SeedFromRounds(153, 154, -1150534314, -1150522528, -1726776096, -1726760683, -26349, -1189806080, -1189832429);
    SeedFromRounds(154, 155, -42429395, -42417609, 1342209203, 1342224616, 20480, -1192755200, -1192734720);
    SeedFromRounds(155, 156, 1065675524, 1065687310, 116227206, 116242619, 1773, -1195704320, -1195702547);
    SeedFromRounds(156, 157, -2121186853, -2121175067, -1109754791, -1109739378, -16934, -1198653440, -1198670374);
    SeedFromRounds(157, 158, -1013081934, -1013070148, 1959230508, 1959245921, 29895, -1201602560, -1201572665);
    SeedFromRounds(158, 159, 95022985, 95034771, 733248511, 733263924, 11188, -1204551680, -1204540492);
    SeedFromRounds(159, 160, 1203127904, 1203139690, -492733486, -492718073, -7519, -1207500800, -1207508319);
  }

  lemma SeedsOfKeys160To175()
    ensures DatetimeToSeed(160) == 3084491150
    ensures DatetimeToSeed(161) == 3081588859
    ensures DatetimeToSeed(162) == 3078621032
    ensures DatetimeToSeed(163) == 3075653205
    ensures DatetimeToSeed(164) == 3072750914
    ensures DatetimeToSeed(165) == 3069783087
    ensures DatetimeToSeed(166) == 3066815260
    ensures DatetimeToSeed(167) == 3063847433
    ensures DatetimeToSeed(168) == 3060945142
    ensures DatetimeToSeed(169) == 3057977315
    ensures DatetimeToSeed(170) == 3055009488
    ensures DatetimeToSeed(171) == 3052107197
    ensures DatetimeToSeed(172) == 3049139370
    ensures DatetimeToSeed(173) == 3046171543
    ensures DatetimeToSeed(174) == 3043203716
    ensures DatetimeToSeed(175) == 3040301425
  {
    SeedFromRounds(160, 161, -1983734473, -1983722687, -1718715483, -1718700070, -26226, -1210449920, -1210476146);
    SeedFromRounds(161, 162, -875629554, -875617768, 1350269816, 1350285229, 20603, -1213399040, -1213378437);
    SeedFromRounds(162, 163, 232475365, 232487151, 124287819, 124303232, 1896, -1216348160, -1216346264);
    SeedFromRounds(163, 164, 1340580284, 1340592070, -1101694178, -1101678765, -16811, -1219297280, -1219314091);
    SeedFromRounds(164, 165, -1846282093, -1846270307, 1967291121, 1967306534, 30018, -1222246400, -1222216382);
    SeedFromRounds(165, 166, -738177174, -738165388, 741309124, 741324537, 11311, -1225195520, -1225184209);
    SeedFromRounds(166, 167, 369927745, 369939531, -484672873, -484657460, -7396, -1228144640, -1228152036);
    SeedFromRounds(167, 168, 1478032664, 1478044450, -1710654870, -1710639457, -26103, -1231093760, -1231119863);
    SeedFromRounds(168, 169, -1708829713, -1708817927, 1358330429, 1358345842, 20726, -1234042880, -1234022154);
    SeedFromRounds(169, 170, -600724794, -600713008, 132348432, 132363845, 2019, -1236992000, -1236989981);
    SeedFromRounds(170, 171, 507380125, 507391911, -1093633565, -1093618152, -16688, -1239941120, -1239957808);
    SeedFromRounds(171, 172, 1615485044, 1615496830, 1975351734, 1975367147, 30141, -1242890240, -1242860099);
    SeedFromRounds(172, 173, -1571377333, -1571365547, 749369737, 749385150, 11434, -1245839360, -1245827926);
    SeedFromRounds(173, 174, -463272414, -463260628, -476612260, -476596847, -7273, -1248788480, -1248795753);
    SeedFromRounds(174, 175, 644832505, 644844291, -1702594257, -1702578844, -25980, -1251737600, -1251763580);
    SeedFromRounds(175, 176, 1752937424, 1752949210, 1366391042, 1366406455, 20849, -1254686720, -1254665871);
  }

  lemma SeedsOfKeys176To191()
    ensures DatetimeToSeed(176) == 3037333598
    ensures DatetimeToSeed(177) == 3034365771
    ensures DatetimeToSeed(178) == 3031463480
    ensures DatetimeToSeed(179) == 3028495653
    ensures DatetimeToSeed(180) == 3025527826
    ensures DatetimeToSeed(181) == 3022559999
    ensures DatetimeToSeed(182) == 3019657708
    ensures DatetimeToSeed(183) == 3016689881
    ensures DatetimeToSeed(184) == 3013722054
    ensures DatetimeToSeed(185) == 3010819763
    ensures DatetimeToSeed(186) == 3007851936
    ensures DatetimeToSeed(187) == 3004884109
    ensures DatetimeToSeed(188) == 3001916282
    ensures DatetimeToSeed(189) == 2999013991
    ensures DatetimeToSeed(190) == 2996046164
    ensures DatetimeToSeed(191) == 2993078337
  {
    SeedFromRounds(176, 177, -1433924953, -1433913167, 140409045, 140424458, 2142, -1257635840, -1257633698);
    SeedFromRounds(177, 178, -325820034, -325808248, -1085572952, -1085557539, -16565, -1260584960, -1260601525);
    SeedFromRounds(178, 179, 782284885, 782296671, 1983412347, 1983427760, 30264, -1263534080, -1263503816);
    SeedFromRounds(179, 180, 1890389804, 1890401590, 757430350, 757445763, 11557, -1266483200, -1266471643);
    SeedFromRounds(180, 181, -1296472573, -1296460787, -468551647, -468536234, -7150, -1269432320, -1269439470);
    SeedFromRounds(181, 182, -188367654, -188355868, -1694533644, -1694518231, -25857, -1272381440, -1272407297);
    SeedFromRounds(182, 183, 919737265, 919749051, 1374451655, 1374467068, 20972, -1275330560, -1275309588);
    SeedFromRounds(183, 184, 2027842184, 2027853970, 148469658, 148485071, 2265, -1278279680, -1278277415);
    SeedFromRounds(184, 185, -1159020193, -1159008407, -1077512339, -1077496926, -16442, -1281228800, -1281245242);
    SeedFromRounds(185, 186, -50915274, -50903488, 1991472960, 1991488373, 30387, -1284177920, -1284147533);
    SeedFromRounds(186, 187, 1057189645, 1057201431, 765490963, 765506376, 11680, -1287127040, -1287115360);
    SeedFromRounds(187, 188, -2129672732, -2129660946, -460491034, -460475621, -7027, -1290076160, -1290083187);
    SeedFromRounds(188, 189, -1021567813, -1021556027, -1686473031, -1686457618, -25734, -1293025280, -1293051014);
    SeedFromRounds(189, 190, 86537106, 86548892, 1382512268, 1382527681, 21095, -1295974400, -1295953305);
    SeedFromRounds(190, 191, 1194642025, 1194653811, 156530271, 156545684, 2388, -1298923520, -1298921132);
    SeedFromRounds(191, 192, -1992220352, -1992208566, -1069451726, -1069436313, -16319, -1301872640, -1301888959);
  }

  lemma SeedsOfKeys192To207()
    ensures DatetimeToSeed(192) == 2990176046
    ensures DatetimeToSeed(193) == 2987208219
    ensures DatetimeToSeed(194) == 2984240392
    ensures DatetimeToSeed(195) == 2981272565
    ensures DatetimeToSeed(196) == 2978370274
    ensures DatetimeToSeed(197) == 2975402447
    ensures DatetimeToSeed(198) == 2972434620
    ensures DatetimeToSeed(199) == 2969532329
    ensures DatetimeToSeed(200) == 2966564502
    ensures DatetimeToSeed(201) == 2963596675
    ensures DatetimeToSeed(202) == 2960628848
    ensures DatetimeToSeed(203) == 2957726557
    ensures DatetimeToSeed(204) == 2954758730
    ensures DatetimeToSeed(205) == 2951790903
    ensures DatetimeToSeed(206) == 2948888612
    ensures DatetimeToSeed(207) == 2945920785
  {
    SeedFromRounds(192, 193, -884115433, -884103647, 1999533573, 1999548986, 30510, -1304821760, -1304791250);
    SeedFromRounds(193, 194, 223989486, 224001272, 773551576, 773566989, 11803, -1307770880, -1307759077);
    SeedFromRounds(194, 195, 1332094405, 1332106191, -452430421, -452415008, -6904, -1310720000, -1310726904);
    SeedFromRounds(195, 196, -1854767972, -1854756186, -1678412418, -1678397005, -25611, -1313669120, -1313694731);
    SeedFromRounds(196, 197, -746663053, -746651267, 1390572881, 1390588294, 21218, -1316618240, -1316597022);
    SeedFromRounds(197, 198, 361441866, 361453652, 164590884, 164606297, 2511, -1319567360, -1319564849);
    SeedFromRounds(198, 199, 1469546785, 1469558571, -1061391113, -1061375700, -16196, -1322516480, -1322532676);
    SeedFromRounds(199, 200, -1717315592, -1717303806, 2007594186, 2007609599, 30633, -1325465600, -1325434967);
    SeedFromRounds(200, 201, -609210673, -609198887, 781612189, 781627602, 11926, -1328414720, -1328402794);
    SeedFromRounds(201, 202, 498894246, 498906032, -444369808, -444354395, -6781, -1331363840, -1331370621);
    SeedFromRounds(202, 203, 1606999165, 1607010951, -1670351805, -1670336392, -25488, -1334312960, -1334338448);
    SeedFromRounds(203, 204, -1579863212, -1579851426, 1398633494, 1398648907, 21341, -1337262080, -1337240739);
    SeedFromRounds(204, 205, -471758293, -471746507, 172651497, 172666910, 2634, -1340211200, -1340208566);
    SeedFromRounds(205, 206, 636346626, 636358412, -1053330500, -1053315087, -16073, -1343160320, -1343176393);
    SeedFromRounds(206, 207, 1744451545, 1744463331, 2015654799, 2015670212, 30756, -1346109440, -1346078684);
    SeedFromRounds(207, 208, -1442410832, -1442399046, 789672802, 789688215, 12049, -1349058560, -1349046511);
  }

  lemma SeedsOfKeys208To223()
    ensures DatetimeToSeed(208) == 2942952958
    ensures DatetimeToSeed(209) == 2939985131
    ensures DatetimeToSeed(210) == 2937082840
    ensures DatetimeToSeed(211) == 2934115013
    ensures DatetimeToSeed(212) == 2931147186
    ensures DatetimeToSeed(213) == 2928244895
    ensures DatetimeToSeed(214) == 2925277068
    ensures DatetimeToSeed(215) == 2922309241
    ensures DatetimeToSeed(216) == 2919341414
    ensures DatetimeToSeed(217) == 2916439123
    ensures DatetimeToSeed(218) == 2913471296
    ensures DatetimeToSeed(219) == 2910503469
    ensures DatetimeToSeed(220) == 2907601178
    ensures DatetimeToSeed(221) == 2904633351
    ensures DatetimeToSeed(222) == 2901665524
    ensures DatetimeToSeed(223) == 2898697697
  {
    SeedFromRounds(208, 209, -334305913, -334294127, -436309195, -436293782, -6658, -1352007680, -1352014338);
    SeedFromRounds(209, 210, 773799006, 773810792, -1662291192, -1662275779, -25365, -1354956800, -1354982165);
    SeedFromRounds(210, 211, 1881903925, 1881915711, 1406694107, 1406709520, 21464, -1357905920, -1357884456);
    SeedFromRounds(211, 212, -1304958452, -1304946666, 180712110, 180727523, 2757, -1360855040, -1360852283);
    SeedFromRounds(212, 213, -196853533, -196841747, -1045269887, -1045254474, -15950, -1363804160, -1363820110);
    SeedFromRounds(213, 214, 911251386, 911263172, 2023715412, 2023730825, 30879, -1366753280, -1366722401);
    SeedFromRounds(214, 215, 2019356305, 2019368091, 797733415, 797748828, 12172, -1369702400, -1369690228);
    SeedFromRounds(215, 216, -1167506072, -1167494286, -428248582, -428233169, -6535, -1372651520, -1372658055);
    SeedFromRounds(216, 217, -59401153, -59389367, -1654230579, -1654215166, -25242, -1375600640, -1375625882);
    SeedFromRounds(217, 218, 1048703766, 1048715552, 1414754720, 1414770133, 21587, -1378549760, -1378528173);
    SeedFromRounds(218, 219, -2138158611, -2138146825, 188772723, 188788136, 2880, -1381498880, -1381496000);
    SeedFromRounds(219, 220, -1030053692, -1030041906, -1037209274, -1037193861, -15827, -1384448000, -1384463827);
    SeedFromRounds(220, 221, 78051227, 78063013, 2031776025, 2031791438, 31002, -1387397120, -1387366118);
    SeedFromRounds(221, 222, 1186156146, 1186167932, 805794028, 805809441, 12295, -1390346240, -1390333945);
    SeedFromRounds(222, 223, -2000706231, -2000694445, -420187969, -420172556, -6412, -1393295360, -1393301772);
    SeedFromRounds(223, 224, -892601312, -892589526, -1646169966, -1646154553, -25119, -1396244480, -1396269599);
  }

  lemma SeedsOfKeys224To239()
    ensures DatetimeToSeed(224) == 2895795406
    ensures DatetimeToSeed(225) == 2892827579
    ensures DatetimeToSeed(226) == 2889859752
    ensures DatetimeToSeed(227) == 2886957461
    ensures DatetimeToSeed(228) == 2883989634
    ensures DatetimeToSeed(229) == 2881021807
    ensures DatetimeToSeed(230) == 2878053980
    ensures DatetimeToSeed(231) == 2875151689
    ensures DatetimeToSeed(232) == 2872183862
    ensures DatetimeToSeed(233) == 2869216035
    ensures DatetimeToSeed(234) == 2866313744
    ensures DatetimeToSeed(235) == 2863345917
    ensures DatetimeToSeed(236) == 2860378090
    ensures DatetimeToSeed(237) == 2857410263
    ensures DatetimeToSeed(238) == 2854507972
    ensures DatetimeToSeed(239) == 2851540145
  {
    SeedFromRounds(224, 225, 215503607, 215515393, 1422815333, 1422830746, 21710, -1399193600, -1399171890);
    SeedFromRounds(225, 226, 1323608526, 1323620312, 196833336, 196848749, 3003, -1402142720, -1402139717);
    SeedFromRounds(226, 227, -1863253851, -1863242065, -1029148661, -1029133248, -15704, -1405091840, -1405107544);
    SeedFromRounds(227, 228, -755148932, -755137146, 2039836638, 2039852051, 31125, -1408040960, -1408009835);
    SeedFromRounds(228, 229, 352955987, 352967773, 813854641, 813870054, 12418, -1410990080, -1410977662);
    SeedFromRounds(229, 230, 1461060906, 1461072692, -412127356, -412111943, -6289, -1413939200, -1413945489);
    SeedFromRounds(230, 231, -1725801471, -1725789685, -1638109353, -1638093940, -24996, -1416888320, -1416913316);
    SeedFromRounds(231, 232, -617696552, -617684766, 1430875946, 1430891359, 21833, -1419837440, -1419815607);
    SeedFromRounds(232, 233, 490408367, 490420153, 204893949, 204909362, 3126, -1422786560, -1422783434);
    SeedFromRounds(233, 234, 1598513286, 1598525072, -1021088048, -1021072635, -15581, -1425735680, -1425751261);
    SeedFromRounds(234, 235, -1588349091, -1588337305, 2047897251, 2047912664, 31248, -1428684800, -1428653552);
    SeedFromRounds(235, 236, -480244172, -480232386, 821915254, 821930667, 12541, -1431633920, -1431621379);
    SeedFromRounds(236, 237, 627860747, 627872533, -404066743, -404051330, -6166, -1434583040, -1434589206);
    SeedFromRounds(237, 238, 1735965666, 1735977452, -1630048740, -1630033327, -24873, -1437532160, -1437557033);
    SeedFromRounds(238, 239, -1450896711, -1450884925, 1438936559, 1438951972, 21956, -1440481280, -1440459324);
    SeedFromRounds(239, 240, -342791792, -342780006, 212954562, 212969975, 3249, -1443430400, -1443427151);
  }

  lemma SeedsOfKeys240To255()
    ensures DatetimeToSeed(240) == 2848572318
    ensures DatetimeToSeed(241) == 2845670027
    ensures DatetimeToSeed(242) == 2842702200
    ensures DatetimeToSeed(243) == 2839734373
    ensures DatetimeToSeed(244) == 2836766546
    ensures DatetimeToSeed(245) == 2833864255
    ensures DatetimeToSeed(246) == 2830896428
    ensures DatetimeToSeed(247) == 2827928601
    ensures DatetimeToSeed(248) == 2825026310
    ensures DatetimeToSeed(249) == 2822058483
    ensures DatetimeToSeed(250) == 2819090656
    ensures DatetimeToSeed(251) == 2816122829
    ensures DatetimeToSeed(252) == 2813220538
    ensures DatetimeToSeed(253) == 2810252711
    ensures DatetimeToSeed(254) == 2807284884
    ensures DatetimeToSeed(255) == 2804382593
  {
    SeedFromRounds(240, 241, 765313127, 765324913, -1013027435, -1013012022, -15458, -1446379520, -1446394978);
    SeedFromRounds(241, 242, 1873418046, 1873429832, 2055957864, 2055973277, 31371, -1449328640, -1449297269);
    SeedFromRounds(242, 243, -1313444331, -1313432545, 829975867, 829991280, 12664, -1452277760, -1452265096);
    SeedFromRounds(243, 244, -205339412, -205327626, -396006130, -395990717, -6043, -1455226880, -1455232923);
    SeedFromRounds(244, 245, 902765507, 902777293, -1621988127, -1621972714, -24750, -1458176000, -1458200750);
    SeedFromRounds(245, 246, 2010870426, 2010882212, 1446997172, 1447012585, 22079, -1461125120, -1461103041);
    SeedFromRounds(246, 247, -1175991951, -1175980165, 221015175, 221030588, 3372, -1464074240, -1464070868);
    SeedFromRounds(247, 248, -67887032, -67875246, -1004966822, -1004951409, -15335, -1467023360, -1467038695);
    SeedFromRounds(248, 249, 1040217887, 1040229673, 2064018477, 2064033890, 31494, -1469972480, -1469940986);
    SeedFromRounds(249, 250, -2146644490, -2146632704, 838036480, 838051893, 12787, -1472921600, -1472908813);
    SeedFromRounds(250, 251, -1038539571, -1038527785, -387945517, -387930104, -5920, -1475870720, -1475876640);
    SeedFromRounds(251, 252, 69565348, 69577134, -1613927514, -1613912101, -24627, -1478819840, -1478844467);
    SeedFromRounds(252, 253, 1177670267, 1177682053, 1455057785, 1455073198, 22202, -1481768960, -1481746758);
    SeedFromRounds(253, 254, -2009192110, -2009180324, 229075788, 229091201, 3495, -1484718080, -1484714585);
    SeedFromRounds(254, 255, -901087191, -901075405, -996906209, -996890796, -15212, -1487667200, -1487682412);
    SeedFromRounds(255, 256, 207017728, 207029514, 2072079090, 2072094503, 31617, -1490616320, -1490584703);
  }
}
