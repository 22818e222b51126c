/** Fee amounts (common/fee.go). */
module Fees {
  import opened Wrappers
  import opened Common
  import opened Arithmetic

  const TWO_60: nat := 0x1000_0000_0000_0000
  const TWO_128: nat := 0x1_0000_0000_0000_0000_0000_0000_0000_0000
  const SHIFTED: FeeSelector := 192

  /** The fee factor of a selector, shifted left by 60 bits below selector 192. */
  function Factor(sel: FeeSelector): nat {
    if sel < 128 then
     if sel < 64 then
      if sel < 32 then
       if sel < 16 then
        if sel < 8 then
         if sel < 4 then
          if sel == 0 then 0 else if sel == 1 then 3
          else if sel == 2 then 9 else 29
         else
          if sel == 4 then 90 else if sel == 5 then 279
          else if sel == 6 then 861 else 2655
        else
         if sel < 12 then
          if sel == 8 then 8192 else if sel == 9 then 25267
          else if sel == 10 then 77935 else 240387
         else
          if sel == 12 then 741455 else if sel == 13 then 2286960
          else if sel == 14 then 7053950 else 21757357
       else
        if sel < 24 then
         if sel < 20 then
          if sel == 16 then 67108864 else if sel == 17 then 206992033
          else if sel == 18 then 638450708 else 1969251187
         else
          if sel == 20 then 6074000999 else if sel == 21 then 18734780191
          else if sel == 22 then 57785961645 else 178236271212
        else
         if sel < 28 then
          if sel == 24 then 549755813888 else if sel == 25 then 1695678735018
          else if sel == 26 then 5230188203117 else 16132105731538
         else
          if sel == 28 then 49758216191607 else if sel == 29 then 153475319327371
          else if sel == 30 then 473382597799226 else 1460111533771401
      else
       if sel < 48 then
        if sel < 40 then
         if sel < 36 then
          if sel == 32 then 4503599627370496 else if sel == 33 then 4662418725241772
          else if sel == 34 then 4826838566504035 else 4997056660946426
         else
          if sel == 36 then 5173277483525749 else if sel == 37 then 5355712719992597
          else if sel == 38 then 5544581521179432 else 5740110766256133
        else
         if sel < 44 then
          if sel == 40 then 5942535335269230 else if sel == 41 then 6152098391292193
          else if sel == 42 then 6369051672525772 else 6593655794699191
         else
          if sel == 44 then 6826180564135515 else if sel == 45 then 7066905301857248
          else if sel == 46 then 7316119179121470 else 7574121564787630
       else
        if sel < 56 then
         if sel < 52 then
          if sel == 48 then 7841222384935199 else if sel == 49 then 8117742495163242
          else if sel == 50 then 8404014066019092 else 8700380982019120
         else
          if sel == 52 then 9007199254740992 else if sel == 53 then 9324837450483544
          else if sel == 54 then 9653677133008070 else 9994113321892852
        else
         if sel < 60 then
          if sel == 56 then 10346554967051498 else if sel == 57 then 10711425439985194
          else if sel == 58 then 11089163042358864 else 11480221532512266
         else
          if sel == 60 then 11885070670538460 else if sel == 61 then 12304196782584386
          else if sel == 62 then 12738103345051544 else 13187311589398382
     else
      if sel < 96 then
       if sel < 80 then
        if sel < 72 then
         if sel < 68 then
          if sel == 64 then 13652361128271030 else if sel == 65 then 14133810603714496
          else if sel == 66 then 14632238358242940 else 15148243129575260
         else
          if sel == 68 then 15682444769870398 else if sel == 69 then 16235484990326484
          else if sel == 70 then 16808028132038184 else 17400761964038240
        else
         if sel < 76 then
          if sel == 72 then 18014398509481984 else if sel == 73 then 18649674900967100
          else if sel == 74 then 19307354266016140 else 19988226643785704
         else
          if sel == 76 then 20693109934102996 else if sel == 77 then 21422850879970388
          else if sel == 78 then 22178326084717744 else 22960443065024532
       else
        if sel < 88 then
         if sel < 84 then
          if sel == 80 then 23770141341076920 else if sel == 81 then 24608393565168772
          else if sel == 82 then 25476206690103088 else 26374623178796784
         else
          if sel == 84 then 27304722256542060 else if sel == 85 then 28267621207428992
          else if sel == 86 then 29264476716485880 else 30296486259150520
        else
         if sel < 92 then
          if sel == 88 then 31364889539740816 else if sel == 89 then 32470969980652968
          else if sel == 90 then 33616056264076368 else 34801523928076480
         else
          if sel == 92 then 36028797018963968 else if sel == 93 then 37299349801934200
          else if sel == 94 then 38614708532032280 else 39976453287571408
      else
       if sel < 112 then
        if sel < 104 then
         if sel < 100 then
          if sel == 96 then 41386219868205992 else if sel == 97 then 42845701759940776
          else if sel == 98 then 44356652169435488 else 45920886130049064
         else
          if sel == 100 then 47540282682153840 else if sel == 101 then 49216787130337544
          else if sel == 102 then 50952413380206176 else 52749246357593568
        else
         if sel < 108 then
          if sel == 104 then 54609444513084120 else if sel == 105 then 56535242414857984
          else if sel == 106 then 58528953432971760 else 60592972518301040
         else
          if sel == 108 then 62729779079481632 else if sel == 109 then 64941939961305936
          else if sel == 110 then 67232112528152736 else 69603047856152960
       else
        if sel < 120 then
         if sel < 116 then
          if sel == 112 then 72057594037927936 else if sel == 113 then 74598699603868352
          else if sel == 114 then 77229417064064608 else 79952906575142816
         else
          if sel == 116 then 82772439736411984 else if sel == 117 then 85691403519881552
          else if sel == 118 then 88713304338870912 else 91841772260098192
        else
         if sel < 124 then
          if sel == 120 then 95080565364307680 else if sel == 121 then 98433574260675088
          else if sel == 122 then 101904826760412352 else 105498492715187056
         else
          if sel == 124 then 109218889026168304 else if sel == 125 then 113070484829715968
          else if sel == 126 then 117057906865943520 else 121185945036602080
    else
     if sel < 192 then
      if sel < 160 then
       if sel < 144 then
        if sel < 136 then
         if sel < 132 then
          if sel == 128 then 125459558158963264 else if sel == 129 then 129883879922611968
          else if sel == 130 then 134464225056305472 else 139206095712305920
         else
          if sel == 132 then 144115188075855872 else if sel == 133 then 149197399207736800
          else if sel == 134 then 154458834128129216 else 159905813150285632
        else
         if sel < 140 then
          if sel == 136 then 165544879472823968 else if sel == 137 then 171382807039763104
          else if sel == 138 then 177426608677741952 else 183683544520196384
         else
          if sel == 140 then 190161130728615360 else if sel == 141 then 196867148521350176
          else if sel == 142 then 203809653520824704 else 210996985430374272
       else
        if sel < 152 then
         if sel < 148 then
          if sel == 144 then 218437778052336608 else if sel == 145 then 226140969659431936
          else if sel == 146 then 234115813731887040 else 242371890073204160
         else
          if sel == 148 then 250919116317926528 else if sel == 149 then 259767759845223936
          else if sel == 150 then 268928450112610944 else 278412191424611840
        else
         if sel < 156 then
          if sel == 152 then 288230376151711744 else if sel == 153 then 298394798415473600
          else if sel == 154 then 308917668256258432 else 319811626300571264
         else
          if sel == 156 then 331089758945647936 else if sel == 157 then 342765614079526208
          else if sel == 158 then 354853217355483904 else 367367089040392768
      else
       if sel < 176 then
        if sel < 168 then
         if sel < 164 then
          if sel == 160 then 380322261457230720 else if sel == 161 then 393734297042700352
          else if sel == 162 then 407619307041649408 else 421993970860748544
         else
          if sel == 164 then 436875556104673216 else if sel == 165 then 452281939318863872
          else if sel == 166 then 468231627463774080 else 484743780146408320
        else
         if sel < 172 then
          if sel == 168 then 501838232635853056 else if sel == 169 then 519535519690447872
          else if sel == 170 then 537856900225221888 else 556824382849223680
         else
          if sel == 172 then 576460752303423488 else if sel == 173 then 596789596830947200
          else if sel == 174 then 617835336512516864 else 639623252601142528
       else
        if sel < 184 then
         if sel < 180 then
          if sel == 176 then 662179517891295872 else if sel == 177 then 685531228159052416
          else if sel == 178 then 709706434710967808 else 734734178080785536
         else
          if sel == 180 then 760644522914461440 else if sel == 181 then 787468594085400704
          else if sel == 182 then 815238614083298816 else 843987941721497088
        else
         if sel < 188 then
          if sel == 184 then 873751112209346432 else if sel == 185 then 904563878637727744
          else if sel == 186 then 936463254927548160 else 969487560292816640
         else
          if sel == 188 then 1003676465271706112 else if sel == 189 then 1039071039380895744
          else if sel == 190 then 1075713800450443776 else 1113648765698447360
     else
      if sel < 224 then
       if sel < 208 then
        if sel < 200 then
         if sel < 196 then
          if sel == 192 then 1 else if sel == 193 then 2
          else if sel == 194 then 4 else 8
         else
          if sel == 196 then 16 else if sel == 197 then 32
          else if sel == 198 then 64 else 128
        else
         if sel < 204 then
          if sel == 200 then 256 else if sel == 201 then 512
          else if sel == 202 then 1024 else 2048
         else
          if sel == 204 then 4096 else if sel == 205 then 8192
          else if sel == 206 then 16384 else 32768
       else
        if sel < 216 then
         if sel < 212 then
          if sel == 208 then 65536 else if sel == 209 then 131072
          else if sel == 210 then 262144 else 524288
         else
          if sel == 212 then 1048576 else if sel == 213 then 2097152
          else if sel == 214 then 4194304 else 8388608
        else
         if sel < 220 then
          if sel == 216 then 16777216 else if sel == 217 then 33554432
          else if sel == 218 then 67108864 else 134217728
         else
          if sel == 220 then 268435456 else if sel == 221 then 536870912
          else if sel == 222 then 1073741824 else 2147483648
      else
       if sel < 240 then
        if sel < 232 then
         if sel < 228 then
          if sel == 224 then 4294967296 else if sel == 225 then 8589934592
          else if sel == 226 then 17179869184 else 34359738368
         else
          if sel == 228 then 68719476736 else if sel == 229 then 137438953472
          else if sel == 230 then 274877906944 else 549755813888
        else
         if sel < 236 then
          if sel == 232 then 1099511627776 else if sel == 233 then 2199023255552
          else if sel == 234 then 4398046511104 else 8796093022208
         else
          if sel == 236 then 17592186044416 else if sel == 237 then 35184372088832
          else if sel == 238 then 70368744177664 else 140737488355328
       else
        if sel < 248 then
         if sel < 244 then
          if sel == 240 then 281474976710656 else if sel == 241 then 562949953421312
          else if sel == 242 then 1125899906842624 else 2251799813685248
         else
          if sel == 244 then 4503599627370496 else if sel == 245 then 9007199254740992
          else if sel == 246 then 18014398509481984 else 36028797018963968
        else
         if sel < 252 then
          if sel == 248 then 72057594037927936 else if sel == 249 then 144115188075855872
          else if sel == 250 then 288230376151711744 else 576460752303423488
         else
          if sel == 252 then 1152921504606846976 else if sel == 253 then 2305843009213693952
          else if sel == 254 then 4611686018427387904 else 9223372036854775808
  }

  /** The fee a selector takes from an amount; fees of more than 128 bits are refused. */
  function CalcFeeAmount(amount: nat, sel: FeeSelector): Result<nat, Error> {
    var product := amount * Factor(sel);
    var fee := if sel < SHIFTED then product / TWO_60 else product;
    if fee >= TWO_128 then Err(FeeOverflow) else Ok(fee)
  }

  // ---- A higher selector is never cheaper ----

  /** The share of the amount that a selector takes, in units of 2 to the -60. */
  function Rate(sel: FeeSelector): nat {
    if sel < SHIFTED then Factor(sel) else Factor(sel) * TWO_60
  }

  lemma RisesBelow128(sel: nat)
    requires sel < 128
    ensures Factor(sel) < Factor(sel + 1)
  {
  }

  lemma RisesUpTo191(sel: nat)
    requires 128 <= sel < 191
    ensures Factor(sel) < Factor(sel + 1)
  {
  }

  lemma DoublesFrom192(sel: nat)
    requires 192 <= sel < 255
    ensures Factor(sel + 1) == 2 * Factor(sel) && Factor(sel) > 0
  {
  }

  lemma CrossesAt192()
    ensures Factor(191) < TWO_60 && Factor(SHIFTED) == 1
  {
  }

  /** The rates of the table are strictly increasing. */
  lemma {:induction false} RateRises(s: FeeSelector, t: FeeSelector)
    requires s < t
    ensures Rate(s) < Rate(t)
    decreases t - s
  {
    hide Factor;
    if t - 1 < 128 {
      RisesBelow128(t - 1);
    } else if t - 1 < 191 {
      RisesUpTo191(t - 1);
    } else if t - 1 == 191 {
      CrossesAt192();
    } else {
      DoublesFrom192(t - 1);
    }
    if s < t - 1 {
      RateRises(s, t - 1);
    }
  }

  /** The fee is the share of the amount, rounded down. */
  lemma FeeIsShare(amount: nat, sel: FeeSelector)
    ensures var fee := amount * Rate(sel) / TWO_60;
            CalcFeeAmount(amount, sel) == if fee >= TWO_128 then Err(FeeOverflow) else Ok(fee)
  {
    hide Factor;
    if sel >= SHIFTED {
      MulAssociates(amount, Factor(sel), TWO_60);
      ExactQuotient(amount * Factor(sel), TWO_60);
    }
  }

  lemma SharesRise(amount: nat, a: nat, b: nat, k: nat)
    requires a <= b && k > 0
    ensures amount * a / k <= amount * b / k
  {
    MulMonotone(a, b, amount);
    QuotientRises(amount * a, amount * b, k);
  }

  /** A higher selector never takes less, and never stays within 128 bits where a lower one does not. */
  lemma HigherSelectorTakesMore(amount: nat, s: FeeSelector, t: FeeSelector)
    requires s <= t && CalcFeeAmount(amount, t).Ok?
    ensures CalcFeeAmount(amount, s).Ok? && CalcFeeAmount(amount, s).value <= CalcFeeAmount(amount, t).value
  {
    hide Rate, CalcFeeAmount;
    FeeIsShare(amount, s);
    FeeIsShare(amount, t);
    if s < t {
      RateRises(s, t);
    }
    SharesRise(amount, Rate(s), Rate(t), TWO_60);
  }

  /** Up to selector 192 a fee is at most the amount; from then on it is a multiple of it. */
  lemma FeeWithinAmountIff(amount: nat, sel: FeeSelector)
    requires amount > 0 && CalcFeeAmount(amount, sel).Ok?
    ensures CalcFeeAmount(amount, sel).value <= amount <==> sel <= SHIFTED
  {
    hide Factor;
    assert Rate(SHIFTED) == TWO_60 by { CrossesAt192(); }
    FeeIsShare(amount, sel);
    ExactQuotient(amount, TWO_60);
    if sel < SHIFTED {
      RateRises(sel, SHIFTED);
      SharesRise(amount, Rate(sel), TWO_60, TWO_60);
    } else if sel > SHIFTED {
      Doubles(sel);
      MulMonotone(2, Factor(sel), amount);
    }
  }

  lemma Doubles(sel: FeeSelector)
    requires sel > SHIFTED
    ensures Factor(sel) >= 2
  {
  }
}
