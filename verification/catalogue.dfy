/** `SEEDS_TO_DVS`: the 256 seeds the game can start a new session with, each
    with the three damage values (Auron, Tidus, Auron) it produces, in the order
    of the source's table. The rows are written as sixteen consecutive blocks of
    sixteen, joined in order. */
module Catalogue {

  datatype DamageValues = DamageValues(auron1: int, tidus: int, auron2: int)

  datatype Entry = Entry(seed: int, dvs: DamageValues)

  const CatalogueSize: nat := 256

  const Block00: seq<Entry> := [
    Entry(3556394350, DamageValues(269, 133, 288)),
    Entry(3553426523, DamageValues(279, 132, 294)),
    Entry(3550458696, DamageValues(260, 134, 274)),
    Entry(3547556405, DamageValues(276, 136, 556)),
    Entry(3544588578, DamageValues(274, 131, 263)),
    Entry(3541620751, DamageValues(271, 134, 285)),
    Entry(3538652924, DamageValues(269, 250, 284)),
    Entry(3535750633, DamageValues(272, 133, 275)),
    Entry(3532782806, DamageValues(582, 139, 274)),
    Entry(3529814979, DamageValues(286, 132, 260)),
    Entry(3526912688, DamageValues(538, 135, 263)),
    Entry(3523944861, DamageValues(267, 278, 288)),
    Entry(3520977034, DamageValues(526, 129, 260)),
    Entry(3518009207, DamageValues(570, 130, 278)),
    Entry(3515106916, DamageValues(271, 262, 271)),
    Entry(3512139089, DamageValues(270, 129, 279))
  ]

  const Block01: seq<Entry> := [
    Entry(3509171262, DamageValues(268, 139, 534)),
    Entry(3506268971, DamageValues(574, 127, 281)),
    Entry(3503301144, DamageValues(286, 134, 267)),
    Entry(3500333317, DamageValues(264, 128, 262)),
    Entry(3497365490, DamageValues(568, 125, 266)),
    Entry(3494463199, DamageValues(540, 136, 578)),
    Entry(3491495372, DamageValues(283, 138, 288)),
    Entry(3488527545, DamageValues(274, 260, 278)),
    Entry(3485625254, DamageValues(281, 139, 546)),
    Entry(3482657427, DamageValues(274, 135, 562)),
    Entry(3479689600, DamageValues(279, 137, 269)),
    Entry(3476721773, DamageValues(263, 125, 564)),
    Entry(3473819482, DamageValues(560, 136, 572)),
    Entry(3470851655, DamageValues(270, 137, 276)),
    Entry(3467883828, DamageValues(267, 125, 552)),
    Entry(3464981537, DamageValues(291, 274, 279))
  ]

  const Block02: seq<Entry> := [
    Entry(3462013710, DamageValues(275, 258, 286)),
    Entry(3459045883, DamageValues(572, 131, 273)),
    Entry(3456078056, DamageValues(274, 139, 272)),
    Entry(3453175765, DamageValues(564, 270, 289)),
    Entry(3450207938, DamageValues(284, 134, 284)),
    Entry(3447240111, DamageValues(526, 128, 267)),
    Entry(3444337820, DamageValues(275, 264, 283)),
    Entry(3441369993, DamageValues(285, 136, 283)),
    Entry(3438402166, DamageValues(272, 276, 267)),
    Entry(3435434339, DamageValues(538, 128, 260)),
    Entry(3432532048, DamageValues(274, 134, 270)),
    Entry(3429564221, DamageValues(534, 135, 534)),
    Entry(3426596394, DamageValues(279, 135, 270)),
    Entry(3423694103, DamageValues(538, 139, 266)),
    Entry(3420726276, DamageValues(281, 136, 526)),
    Entry(3417758449, DamageValues(560, 268, 276))
  ]

  const Block03: seq<Entry> := [
    Entry(3414790622, DamageValues(283, 262, 283)),
    Entry(3411888331, DamageValues(274, 262, 275)),
    Entry(3408920504, DamageValues(260, 138, 287)),
    Entry(3405952677, DamageValues(294, 128, 282)),
    Entry(3403050386, DamageValues(263, 128, 570)),
    Entry(3400082559, DamageValues(578, 129, 281)),
    Entry(3397114732, DamageValues(282, 138, 562)),
    Entry(3394146905, DamageValues(262, 132, 278)),
    Entry(3391244614, DamageValues(271, 136, 264)),
    Entry(3388276787, DamageValues(270, 132, 536)),
    Entry(3385308960, DamageValues(546, 129, 274)),
    Entry(3382406669, DamageValues(284, 129, 285)),
    Entry(3379438842, DamageValues(526, 132, 289)),
    Entry(3376471015, DamageValues(264, 258, 291)),
    Entry(3373503188, DamageValues(272, 138, 273)),
    Entry(3370600897, DamageValues(266, 126, 269))
  ]

  const Block04: seq<Entry> := [
    Entry(3367633070, DamageValues(293, 126, 287)),
    Entry(3364665243, DamageValues(267, 254, 271)),
    Entry(3361762952, DamageValues(284, 141, 280)),
    Entry(3358795125, DamageValues(261, 126, 281)),
    Entry(3355827298, DamageValues(282, 139, 283)),
    Entry(3352859471, DamageValues(284, 130, 272)),
    Entry(3349957180, DamageValues(291, 135, 292)),
    Entry(3346989353, DamageValues(260, 141, 281)),
    Entry(3344021526, DamageValues(280, 132, 280)),
    Entry(3341119235, DamageValues(284, 268, 291)),
    Entry(3338151408, DamageValues(283, 136, 284)),
    Entry(3335183581, DamageValues(283, 132, 291)),
    Entry(3332215754, DamageValues(261, 138, 264)),
    Entry(3329313463, DamageValues(280, 274, 291)),
    Entry(3326345636, DamageValues(538, 140, 270)),
    Entry(3323377809, DamageValues(280, 141, 266))
  ]

  const Block05: seq<Entry> := [
    Entry(3320475518, DamageValues(278, 134, 289)),
    Entry(3317507691, DamageValues(283, 278, 275)),
    Entry(3314539864, DamageValues(281, 254, 538)),
    Entry(3311572037, DamageValues(275, 141, 276)),
    Entry(3308669746, DamageValues(287, 140, 270)),
    Entry(3305701919, DamageValues(281, 131, 274)),
    Entry(3302734092, DamageValues(280, 254, 287)),
    Entry(3299831801, DamageValues(263, 133, 269)),
    Entry(3296863974, DamageValues(291, 262, 281)),
    Entry(3293896147, DamageValues(546, 270, 268)),
    Entry(3290928320, DamageValues(276, 268, 289)),
    Entry(3288026029, DamageValues(273, 138, 275)),
    Entry(3285058202, DamageValues(268, 132, 289)),
    Entry(3282090375, DamageValues(271, 128, 284)),
    Entry(3279188084, DamageValues(278, 135, 582)),
    Entry(3276220257, DamageValues(582, 137, 560))
  ]

  const Block06: seq<Entry> := [
    Entry(3273252430, DamageValues(293, 130, 292)),
    Entry(3270284603, DamageValues(270, 128, 528)),
    Entry(3267382312, DamageValues(263, 141, 261)),
    Entry(3264414485, DamageValues(266, 138, 564)),
    Entry(3261446658, DamageValues(276, 141, 274)),
    Entry(3258544367, DamageValues(272, 139, 534)),
    Entry(3255576540, DamageValues(284, 282, 267)),
    Entry(3252608713, DamageValues(273, 138, 283)),
    Entry(3249640886, DamageValues(267, 141, 280)),
    Entry(3246738595, DamageValues(281, 136, 546)),
    Entry(3243770768, DamageValues(274, 129, 281)),
    Entry(3240802941, DamageValues(288, 135, 538)),
    Entry(3237900650, DamageValues(264, 131, 287)),
    Entry(3234932823, DamageValues(586, 127, 273)),
    Entry(3231964996, DamageValues(276, 262, 278)),
    Entry(3228997169, DamageValues(267, 140, 285))
  ]

  const Block07: seq<Entry> := [
    Entry(3226094878, DamageValues(273, 126, 273)),
    Entry(3223127051, DamageValues(540, 126, 287)),
    Entry(3220159224, DamageValues(522, 132, 263)),
    Entry(3217256933, DamageValues(284, 125, 288)),
    Entry(3214289106, DamageValues(283, 137, 260)),
    Entry(3211321279, DamageValues(261, 135, 294)),
    Entry(3208353452, DamageValues(562, 272, 528)),
    Entry(3205451161, DamageValues(534, 280, 279)),
    Entry(3202483334, DamageValues(586, 139, 293)),
    Entry(3199515507, DamageValues(293, 130, 532)),
    Entry(3196613216, DamageValues(268, 134, 270)),
    Entry(3193645389, DamageValues(271, 132, 288)),
    Entry(3190677562, DamageValues(267, 134, 291)),
    Entry(3187709735, DamageValues(280, 252, 293)),
    Entry(3184807444, DamageValues(278, 128, 282)),
    Entry(3181839617, DamageValues(291, 128, 274))
  ]

  const Block08: seq<Entry> := [
    Entry(3178871790, DamageValues(294, 134, 269)),
    Entry(3175969499, DamageValues(289, 132, 278)),
    Entry(3173001672, DamageValues(276, 260, 260)),
    Entry(3170033845, DamageValues(271, 132, 276)),
    Entry(3167066018, DamageValues(287, 126, 271)),
    Entry(3164163727, DamageValues(286, 254, 280)),
    Entry(3161195900, DamageValues(270, 128, 283)),
    Entry(3158228073, DamageValues(276, 126, 280)),
    Entry(3155325782, DamageValues(263, 256, 286)),
    Entry(3152357955, DamageValues(528, 278, 578)),
    Entry(3149390128, DamageValues(283, 272, 267)),
    Entry(3146422301, DamageValues(266, 137, 273)),
    Entry(3143520010, DamageValues(281, 131, 285)),
    Entry(3140552183, DamageValues(267, 136, 282)),
    Entry(3137584356, DamageValues(289, 129, 293)),
    Entry(3134682065, DamageValues(556, 127, 566))
  ]

  const Block09: seq<Entry> := [
    Entry(3131714238, DamageValues(262, 132, 279)),
    Entry(3128746411, DamageValues(268, 136, 274)),
    Entry(3125778584, DamageValues(268, 132, 261)),
    Entry(3122876293, DamageValues(271, 127, 544)),
    Entry(3119908466, DamageValues(273, 138, 269)),
    Entry(3116940639, DamageValues(528, 131, 281)),
    Entry(3114038348, DamageValues(293, 258, 263)),
    Entry(3111070521, DamageValues(289, 127, 272)),
    Entry(3108102694, DamageValues(272, 134, 293)),
    Entry(3105134867, DamageValues(271, 133, 267)),
    Entry(3102232576, DamageValues(584, 130, 284)),
    Entry(3099264749, DamageValues(273, 270, 284)),
    Entry(3096296922, DamageValues(526, 262, 263)),
    Entry(3093394631, DamageValues(273, 131, 275)),
    Entry(3090426804, DamageValues(267, 138, 289)),
    Entry(3087458977, DamageValues(289, 131, 536))
  ]

  const Block10: seq<Entry> := [
    Entry(3084491150, DamageValues(282, 136, 273)),
    Entry(3081588859, DamageValues(282, 129, 281)),
    Entry(3078621032, DamageValues(279, 132, 280)),
    Entry(3075653205, DamageValues(266, 130, 275)),
    Entry(3072750914, DamageValues(268, 141, 536)),
    Entry(3069783087, DamageValues(520, 136, 582)),
    Entry(3066815260, DamageValues(279, 141, 562)),
    Entry(3063847433, DamageValues(568, 268, 264)),
    Entry(3060945142, DamageValues(293, 126, 263)),
    Entry(3057977315, DamageValues(270, 129, 582)),
    Entry(3055009488, DamageValues(263, 140, 584)),
    Entry(3052107197, DamageValues(272, 141, 280)),
    Entry(3049139370, DamageValues(268, 139, 540)),
    Entry(3046171543, DamageValues(274, 266, 264)),
    Entry(3043203716, DamageValues(263, 252, 278)),
    Entry(3040301425, DamageValues(568, 131, 273))
  ]

  const Block11: seq<Entry> := [
    Entry(3037333598, DamageValues(279, 268, 279)),
    Entry(3034365771, DamageValues(279, 126, 282)),
    Entry(3031463480, DamageValues(281, 132, 576)),
    Entry(3028495653, DamageValues(286, 131, 284)),
    Entry(3025527826, DamageValues(283, 274, 285)),
    Entry(3022559999, DamageValues(267, 258, 522)),
    Entry(3019657708, DamageValues(276, 139, 274)),
    Entry(3016689881, DamageValues(281, 127, 280)),
    Entry(3013722054, DamageValues(285, 264, 281)),
    Entry(3010819763, DamageValues(260, 125, 291)),
    Entry(3007851936, DamageValues(286, 132, 276)),
    Entry(3004884109, DamageValues(275, 125, 267)),
    Entry(3001916282, DamageValues(260, 140, 542)),
    Entry(2999013991, DamageValues(283, 136, 274)),
    Entry(2996046164, DamageValues(264, 250, 273)),
    Entry(2993078337, DamageValues(278, 137, 292))
  ]

  const Block12: seq<Entry> := [
    Entry(2990176046, DamageValues(268, 131, 570)),
    Entry(2987208219, DamageValues(558, 141, 294)),
    Entry(2984240392, DamageValues(286, 268, 292)),
    Entry(2981272565, DamageValues(281, 132, 292)),
    Entry(2978370274, DamageValues(276, 135, 294)),
    Entry(2975402447, DamageValues(276, 270, 281)),
    Entry(2972434620, DamageValues(568, 129, 522)),
    Entry(2969532329, DamageValues(261, 139, 582)),
    Entry(2966564502, DamageValues(283, 137, 566)),
    Entry(2963596675, DamageValues(261, 141, 275)),
    Entry(2960628848, DamageValues(268, 133, 271)),
    Entry(2957726557, DamageValues(275, 137, 270)),
    Entry(2954758730, DamageValues(272, 258, 261)),
    Entry(2951790903, DamageValues(268, 126, 568)),
    Entry(2948888612, DamageValues(292, 138, 291)),
    Entry(2945920785, DamageValues(287, 129, 570))
  ]

  const Block13: seq<Entry> := [
    Entry(2942952958, DamageValues(285, 274, 285)),
    Entry(2939985131, DamageValues(267, 141, 272)),
    Entry(2937082840, DamageValues(269, 130, 282)),
    Entry(2934115013, DamageValues(289, 127, 287)),
    Entry(2931147186, DamageValues(269, 141, 292)),
    Entry(2928244895, DamageValues(292, 131, 266)),
    Entry(2925277068, DamageValues(284, 136, 292)),
    Entry(2922309241, DamageValues(274, 135, 522)),
    Entry(2919341414, DamageValues(269, 134, 282)),
    Entry(2916439123, DamageValues(285, 128, 266)),
    Entry(2913471296, DamageValues(288, 126, 274)),
    Entry(2910503469, DamageValues(528, 131, 283)),
    Entry(2907601178, DamageValues(264, 138, 293)),
    Entry(2904633351, DamageValues(292, 254, 280)),
    Entry(2901665524, DamageValues(285, 125, 283)),
    Entry(2898697697, DamageValues(261, 133, 286))
  ]

  const Block14: seq<Entry> := [
    Entry(2895795406, DamageValues(294, 139, 274)),
    Entry(2892827579, DamageValues(263, 140, 292)),
    Entry(2889859752, DamageValues(294, 130, 584)),
    Entry(2886957461, DamageValues(540, 132, 269)),
    Entry(2883989634, DamageValues(264, 125, 266)),
    Entry(2881021807, DamageValues(536, 130, 272)),
    Entry(2878053980, DamageValues(574, 125, 276)),
    Entry(2875151689, DamageValues(294, 135, 291)),
    Entry(2872183862, DamageValues(267, 132, 288)),
    Entry(2869216035, DamageValues(281, 134, 289)),
    Entry(2866313744, DamageValues(281, 262, 269)),
    Entry(2863345917, DamageValues(269, 282, 586)),
    Entry(2860378090, DamageValues(586, 134, 556)),
    Entry(2857410263, DamageValues(263, 136, 276)),
    Entry(2854507972, DamageValues(280, 127, 546)),
    Entry(2851540145, DamageValues(528, 137, 268))
  ]

  const Block15: seq<Entry> := [
    Entry(2848572318, DamageValues(284, 268, 293)),
    Entry(2845670027, DamageValues(287, 129, 287)),
    Entry(2842702200, DamageValues(532, 126, 285)),
    Entry(2839734373, DamageValues(273, 128, 281)),
    Entry(2836766546, DamageValues(282, 256, 270)),
    Entry(2833864255, DamageValues(558, 128, 534)),
    Entry(2830896428, DamageValues(291, 140, 285)),
    Entry(2827928601, DamageValues(292, 141, 279)),
    Entry(2825026310, DamageValues(278, 137, 279)),
    Entry(2822058483, DamageValues(260, 138, 285)),
    Entry(2819090656, DamageValues(576, 132, 292)),
    Entry(2816122829, DamageValues(584, 270, 262)),
    Entry(2813220538, DamageValues(264, 141, 271)),
    Entry(2810252711, DamageValues(279, 132, 576)),
    Entry(2807284884, DamageValues(584, 129, 284)),
    Entry(2804382593, DamageValues(286, 135, 275))
  ]

  /** Block k of the table: rows 16 * k to 16 * k + 15. */
  function Block(k: int): (r: seq<Entry>)
    requires 0 <= k < 16
    ensures |r| == 16
  {
    if k == 0 then Block00
    else if k == 1 then Block01
    else if k == 2 then Block02
    else if k == 3 then Block03
    else if k == 4 then Block04
    else if k == 5 then Block05
    else if k == 6 then Block06
    else if k == 7 then Block07
    else if k == 8 then Block08
    else if k == 9 then Block09
    else if k == 10 then Block10
    else if k == 11 then Block11
    else if k == 12 then Block12
    else if k == 13 then Block13
    else if k == 14 then Block14
    else Block15
  }

  /** The whole table, rows in source order. */
  function SeedsToDvs(): (r: seq<Entry>)
    ensures |r| == CatalogueSize
  {
    seq(CatalogueSize, i requires 0 <= i < CatalogueSize => Block(i / 16)[i % 16])
  }
}
