/** The power branch of the sRGB decoding curve, ((c/255 + 0.055) / 1.055)^2.4, for the
    channel values 11..255 that take it. Dafny has no real exponentiation, so each value is
    the IEEE double that expression evaluates to for that channel, written out; every entry is bound to
    the formula by lying between the cube and the square of the base (the exponent 2.4 lies
    between 2 and 3 and the base lies in (0, 1]).

    `PowerBranch` is one table of 245 values, and "the power branch rises" is one property.
    Both are split into eight blocks of the same shape (`PowerBranch11` ... `PowerBranch221`
    and `Rises11` ... `Rises221`) only to keep each proof obligation small;
    `PowerBranchRises` joins the blocks back into the single statement about channels
    11..255. */
module SrgbCurve {

  /** The base the source raises to the power 2.4. */
  function GammaBase(c: int): real {
    ((c as real) / 255.0 + 0.055) / 1.055
  }

  function PowerBranch(c: int): (v: real)
    requires 11 <= c <= 255
    ensures 0.0 < v <= 1.0
    ensures GammaBase(c) * GammaBase(c) * GammaBase(c) <= v <= GammaBase(c) * GammaBase(c)
    ensures c == 255 ==> v == 1.0
  {
    if c <= 40 then PowerBranch11(c)
    else if c <= 70 then PowerBranch41(c)
    else if c <= 100 then PowerBranch71(c)
    else if c <= 130 then PowerBranch101(c)
    else if c <= 160 then PowerBranch131(c)
    else if c <= 190 then PowerBranch161(c)
    else if c <= 220 then PowerBranch191(c)
    else PowerBranch221(c)
  }

  function PowerBranch11(c: int): (v: real)
    requires 11 <= c <= 40
    ensures 0.0 < v <= 1.0
    ensures GammaBase(c) * GammaBase(c) * GammaBase(c) <= v <= GammaBase(c) * GammaBase(c)
  {
    if c <= 25 then
      if c <= 18 then
        if c <= 14 then
          if c <= 12 then
            if c <= 11 then
              assert c == 11; 0.003346535763899161
            else
              assert c == 12; 0.003676507324047436
          else
            if c <= 13 then
              assert c == 13; 0.004024717018496307
            else
              assert c == 14; 0.004391442037410293
        else
          if c <= 16 then
            if c <= 15 then
              assert c == 15; 0.004776953480693729
            else
              assert c == 16; 0.005181516702338386
          else
            if c <= 17 then
              assert c == 17; 0.005605391624202723
            else
              assert c == 18; 0.006048833022857054
      else
        if c <= 22 then
          if c <= 20 then
            if c <= 19 then
              assert c == 19; 0.006512090792594475
            else
              assert c == 20; 0.006995410187265387
          else
            if c <= 21 then
              assert c == 21; 0.007499032043226175
            else
              assert c == 22; 0.008023192985384994
        else
          if c <= 24 then
            if c <= 23 then
              assert c == 23; 0.008568125618069307
            else
              assert c == 24; 0.009134058702220787
          else
            assert c == 25; 0.00972121732023785
    else
      if c <= 33 then
        if c <= 29 then
          if c <= 27 then
            if c <= 26 then
              assert c == 26; 0.010329823029626936
            else
              assert c == 27; 0.010960094006488246
          else
            if c <= 28 then
              assert c == 28; 0.011612245179743885
            else
              assert c == 29; 0.012286488356915872
        else
          if c <= 31 then
            if c <= 30 then
              assert c == 30; 0.012983032342173012
            else
              assert c == 31; 0.013702083047289686
          else
            if c <= 32 then
              assert c == 32; 0.014443843596092545
            else
              assert c == 33; 0.01520851442291271
      else
        if c <= 37 then
          if c <= 35 then
            if c <= 34 then
              assert c == 34; 0.01599629336550963
            else
              assert c == 35; 0.016807375752887384
          else
            if c <= 36 then
              assert c == 36; 0.017641954488384078
            else
              assert c == 37; 0.018500220128379697
        else
          if c <= 39 then
            if c <= 38 then
              assert c == 38; 0.019382360956935723
            else
              assert c == 39; 0.0202885630566524
          else
            assert c == 40; 0.021219010376003555
  }

  function PowerBranch41(c: int): (v: real)
    requires 41 <= c <= 70
    ensures 0.0 < v <= 1.0
    ensures GammaBase(c) * GammaBase(c) * GammaBase(c) <= v <= GammaBase(c) * GammaBase(c)
  {
    if c <= 55 then
      if c <= 48 then
        if c <= 44 then
          if c <= 42 then
            if c <= 41 then
              assert c == 41; 0.02217388479338738
            else
              assert c == 42; 0.02315336617811041
          else
            if c <= 43 then
              assert c == 43; 0.024157632448504756
            else
              assert c == 44; 0.02518685962736163
        else
          if c <= 46 then
            if c <= 45 then
              assert c == 45; 0.026241221894849898
            else
              assert c == 46; 0.027320891639074894
          else
            if c <= 47 then
              assert c == 47; 0.028426039504420793
            else
              assert c == 48; 0.0295568344378088
      else
        if c <= 52 then
          if c <= 50 then
            if c <= 49 then
              assert c == 49; 0.030713443732993635
            else
              assert c == 50; 0.03189603307301153
          else
            if c <= 51 then
              assert c == 51; 0.033104766570885055
            else
              assert c == 52; 0.03433980680868217
        else
          if c <= 54 then
            if c <= 53 then
              assert c == 53; 0.03560131487502034
            else
              assert c == 54; 0.03688945040110004
          else
            assert c == 55; 0.0382043715953465
    else
      if c <= 63 then
        if c <= 59 then
          if c <= 57 then
            if c <= 56 then
              assert c == 56; 0.03954623527673284
            else
              assert c == 57; 0.04091519690685319
          else
            if c <= 58 then
              assert c == 58; 0.042311410620809675
            else
              assert c == 59; 0.043735029256973465
        else
          if c <= 61 then
            if c <= 60 then
              assert c == 60; 0.04518620438567554
            else
              assert c == 61; 0.046665086336880095
          else
            if c <= 62 then
              assert c == 62; 0.04817182422688942
            else
              assert c == 63; 0.04970656598412723
      else
        if c <= 67 then
          if c <= 65 then
            if c <= 64 then
              assert c == 64; 0.05126945837404324
            else
              assert c == 65; 0.052860647023180246
          else
            if c <= 66 then
              assert c == 66; 0.05448027644244237
            else
              assert c == 67; 0.05612849004960009
        else
          if c <= 69 then
            if c <= 68 then
              assert c == 68; 0.05780543019106723
            else
              assert c == 69; 0.0595112381629812
          else
            assert c == 70; 0.06124605423161761
  }

  function PowerBranch71(c: int): (v: real)
    requires 71 <= c <= 100
    ensures 0.0 < v <= 1.0
    ensures GammaBase(c) * GammaBase(c) * GammaBase(c) <= v <= GammaBase(c) * GammaBase(c)
  {
    if c <= 85 then
      if c <= 78 then
        if c <= 74 then
          if c <= 72 then
            if c <= 71 then
              assert c == 71; 0.06301001765316767
            else
              assert c == 72; 0.06480326669290577
          else
            if c <= 73 then
              assert c == 73; 0.06662593864377289
            else
              assert c == 74; 0.06847816984440017
        else
          if c <= 76 then
            if c <= 75 then
              assert c == 75; 0.07036009569659588
            else
              assert c == 76; 0.07227185068231748
          else
            if c <= 77 then
              assert c == 77; 0.07421356838014963
            else
              assert c == 78; 0.07618538148130785
      else
        if c <= 82 then
          if c <= 80 then
            if c <= 79 then
              assert c == 79; 0.07818742180518633
            else
              assert c == 80; 0.08021982031446832
          else
            if c <= 81 then
              assert c == 81; 0.0822827071298148
            else
              assert c == 82; 0.08437621154414882
        else
          if c <= 84 then
            if c <= 83 then
              assert c == 83; 0.08650046203654976
            else
              assert c == 84; 0.08865558628577294
          else
            assert c == 85; 0.09084171118340768
    else
      if c <= 93 then
        if c <= 89 then
          if c <= 87 then
            if c <= 86 then
              assert c == 86; 0.09305896284668745
            else
              assert c == 87; 0.0953074666309647
          else
            if c <= 88 then
              assert c == 88; 0.09758734714186246
            else
              assert c == 89; 0.09989872824711389
        else
          if c <= 91 then
            if c <= 90 then
              assert c == 90; 0.10224173308810132
            else
              assert c == 91; 0.10461648409110419
          else
            if c <= 92 then
              assert c == 92; 0.10702310297826761
            else
              assert c == 93; 0.10946171077829933
      else
        if c <= 97 then
          if c <= 95 then
            if c <= 94 then
              assert c == 94; 0.1119324278369056
            else
              assert c == 95; 0.11443537382697373
          else
            if c <= 96 then
              assert c == 96; 0.11697066775851084
            else
              assert c == 97; 0.11953842798834562
        else
          if c <= 99 then
            if c <= 98 then
              assert c == 98; 0.12213877222960187
            else
              assert c == 99; 0.12477181756095049
          else
            assert c == 100; 0.12743768043564743
  }

  function PowerBranch101(c: int): (v: real)
    requires 101 <= c <= 130
    ensures 0.0 < v <= 1.0
    ensures GammaBase(c) * GammaBase(c) * GammaBase(c) <= v <= GammaBase(c) * GammaBase(c)
  {
    if c <= 115 then
      if c <= 108 then
        if c <= 104 then
          if c <= 102 then
            if c <= 101 then
              assert c == 101; 0.1301364766903643
            else
              assert c == 102; 0.13286832155381798
          else
            if c <= 103 then
              assert c == 103; 0.13563332965520566
            else
              assert c == 104; 0.13843161503245183
        else
          if c <= 106 then
            if c <= 105 then
              assert c == 105; 0.14126329114027164
            else
              assert c == 106; 0.14412847085805777
          else
            if c <= 107 then
              assert c == 107; 0.14702726649759498
            else
              assert c == 108; 0.14995978981060856
      else
        if c <= 112 then
          if c <= 110 then
            if c <= 109 then
              assert c == 109; 0.15292615199615017
            else
              assert c == 110; 0.1559264637078274
          else
            if c <= 111 then
              assert c == 111; 0.1589608350608804
            else
              assert c == 112; 0.162029375639111
        else
          if c <= 114 then
            if c <= 113 then
              assert c == 113; 0.1651321945016676
            else
              assert c == 114; 0.16826940018969075
          else
            assert c == 115; 0.1714411007328226
    else
      if c <= 123 then
        if c <= 119 then
          if c <= 117 then
            if c <= 116 then
              assert c == 116; 0.17464740365558504
            else
              assert c == 117; 0.17788841598362912
          else
            if c <= 118 then
              assert c == 118; 0.18116424424986022
            else
              assert c == 119; 0.184474994500441
        else
          if c <= 121 then
            if c <= 120 then
              assert c == 120; 0.18782077230067787
            else
              assert c == 121; 0.19120168274079138
          else
            if c <= 122 then
              assert c == 122; 0.1946178304415758
            else
              assert c == 123; 0.19806931955994886
      else
        if c <= 127 then
          if c <= 125 then
            if c <= 124 then
              assert c == 124; 0.20155625379439707
            else
              assert c == 125; 0.20507873639031693
          else
            if c <= 126 then
              assert c == 126; 0.20863687014525575
            else
              assert c == 127; 0.21223075741405523
        else
          if c <= 129 then
            if c <= 128 then
              assert c == 128; 0.21586050011389926
            else
              assert c == 129; 0.2195261997292692
          else
            assert c == 130; 0.2232279573168085
  }

  function PowerBranch131(c: int): (v: real)
    requires 131 <= c <= 160
    ensures 0.0 < v <= 1.0
    ensures GammaBase(c) * GammaBase(c) * GammaBase(c) <= v <= GammaBase(c) * GammaBase(c)
  {
    if c <= 145 then
      if c <= 138 then
        if c <= 134 then
          if c <= 132 then
            if c <= 131 then
              assert c == 131; 0.22696587351009836
            else
              assert c == 132; 0.23074004852434915
          else
            if c <= 133 then
              assert c == 133; 0.23455058216100522
            else
              assert c == 134; 0.238397573812271
        else
          if c <= 136 then
            if c <= 135 then
              assert c == 135; 0.24228112246555486
            else
              assert c == 136; 0.24620132670783548
          else
            if c <= 137 then
              assert c == 137; 0.25015828472995344
            else
              assert c == 138; 0.25415209433082675
      else
        if c <= 142 then
          if c <= 140 then
            if c <= 139 then
              assert c == 139; 0.2581828529215958
            else
              assert c == 140; 0.26225065752969623
          else
            if c <= 141 then
              assert c == 141; 0.26635560480286247
            else
              assert c == 142; 0.2704977910130658
        else
          if c <= 144 then
            if c <= 143 then
              assert c == 143; 0.27467731206038465
            else
              assert c == 144; 0.2788942634768104
          else
            assert c == 145; 0.2831487404299921
    else
      if c <= 153 then
        if c <= 149 then
          if c <= 147 then
            if c <= 146 then
              assert c == 146; 0.2874408377269175
            else
              assert c == 147; 0.29177064981753587
          else
            if c <= 148 then
              assert c == 148; 0.2961382707983211
            else
              assert c == 149; 0.3005437944157765
        else
          if c <= 151 then
            if c <= 150 then
              assert c == 150; 0.3049873140698863
            else
              assert c == 151; 0.30946892281750854
          else
            if c <= 152 then
              assert c == 152; 0.31398871337571754
            else
              assert c == 153; 0.31854677812509186
      else
        if c <= 157 then
          if c <= 155 then
            if c <= 154 then
              assert c == 154; 0.32314320911295075
            else
              assert c == 155; 0.3277780980565422
          else
            if c <= 156 then
              assert c == 156; 0.33245153634617935
            else
              assert c == 157; 0.33716361504833037
        else
          if c <= 159 then
            if c <= 158 then
              assert c == 158; 0.3419144249086609
            else
              assert c == 159; 0.3467040563550296
          else
            assert c == 160; 0.35153259950043936
  }

  function PowerBranch161(c: int): (v: real)
    requires 161 <= c <= 190
    ensures 0.0 < v <= 1.0
    ensures GammaBase(c) * GammaBase(c) * GammaBase(c) <= v <= GammaBase(c) * GammaBase(c)
  {
    if c <= 175 then
      if c <= 168 then
        if c <= 164 then
          if c <= 162 then
            if c <= 161 then
              assert c == 161; 0.3564001441459435
            else
              assert c == 162; 0.3613067797835095
          else
            if c <= 163 then
              assert c == 163; 0.3662525955988395
            else
              assert c == 164; 0.3712376804741491
        else
          if c <= 166 then
            if c <= 165 then
              assert c == 165; 0.3762621229909065
            else
              assert c == 166; 0.38132601143253014
          else
            if c <= 167 then
              assert c == 167; 0.386429433787049
            else
              assert c == 168; 0.39157247774972326
      else
        if c <= 172 then
          if c <= 170 then
            if c <= 169 then
              assert c == 169; 0.39675523072562685
            else
              assert c == 170; 0.4019777798321958
          else
            if c <= 171 then
              assert c == 171; 0.4072402119017367
            else
              assert c == 172; 0.41254261348390375
        else
          if c <= 174 then
            if c <= 173 then
              assert c == 173; 0.4178850708481375
            else
              assert c == 174; 0.4232676699860717
          else
            assert c == 175; 0.4286904966139066
    else
      if c <= 183 then
        if c <= 179 then
          if c <= 177 then
            if c <= 176 then
              assert c == 176; 0.43415363617474895
            else
              assert c == 177; 0.4396571738409188
          else
            if c <= 178 then
              assert c == 178; 0.44520119451622786
            else
              assert c == 179; 0.45078578283822346
        else
          if c <= 181 then
            if c <= 180 then
              assert c == 180; 0.45641102318040466
            else
              assert c == 181; 0.4620769996544071
          else
            if c <= 182 then
              assert c == 182; 0.467783796112159
            else
              assert c == 183; 0.47353149614800955
      else
        if c <= 187 then
          if c <= 185 then
            if c <= 184 then
              assert c == 184; 0.4793201831008268
            else
              assert c == 185; 0.4851499400560704
          else
            if c <= 186 then
              assert c == 186; 0.4910208498478356
            else
              assert c == 187; 0.4969329950608704
        else
          if c <= 189 then
            if c <= 188 then
              assert c == 188; 0.5028864580325687
            else
              assert c == 189; 0.5088813208549338
          else
            assert c == 190; 0.5149176653765214
  }

  function PowerBranch191(c: int): (v: real)
    requires 191 <= c <= 220
    ensures 0.0 < v <= 1.0
    ensures GammaBase(c) * GammaBase(c) * GammaBase(c) <= v <= GammaBase(c) * GammaBase(c)
  {
    if c <= 205 then
      if c <= 198 then
        if c <= 194 then
          if c <= 192 then
            if c <= 191 then
              assert c == 191; 0.5209955732043543
            else
              assert c == 192; 0.5271151257058131
          else
            if c <= 193 then
              assert c == 193; 0.5332764040105052
            else
              assert c == 194; 0.5394794890121072
        else
          if c <= 196 then
            if c <= 195 then
              assert c == 195; 0.5457244613701866
            else
              assert c == 196; 0.5520114015120001
          else
            if c <= 197 then
              assert c == 197; 0.5583403896342679
            else
              assert c == 198; 0.5647115057049292
      else
        if c <= 202 then
          if c <= 200 then
            if c <= 199 then
              assert c == 199; 0.5711248294648731
            else
              assert c == 200; 0.5775804404296506
          else
            if c <= 201 then
              assert c == 201; 0.5840784178911641
            else
              assert c == 202; 0.5906188409193369
        else
          if c <= 204 then
            if c <= 203 then
              assert c == 203; 0.5972017883637634
            else
              assert c == 204; 0.6038273388553378
          else
            assert c == 205; 0.6104955708078648
    else
      if c <= 213 then
        if c <= 209 then
          if c <= 207 then
            if c <= 206 then
              assert c == 206; 0.6172065624196511
            else
              assert c == 207; 0.6239603916750761
          else
            if c <= 208 then
              assert c == 208; 0.6307571363461468
            else
              assert c == 209; 0.6375968739940326
        else
          if c <= 211 then
            if c <= 210 then
              assert c == 210; 0.6444796819705821
            else
              assert c == 211; 0.6514056374198242
          else
            if c <= 212 then
              assert c == 212; 0.6583748172794485
            else
              assert c == 213; 0.665387298282272
      else
        if c <= 217 then
          if c <= 215 then
            if c <= 214 then
              assert c == 214; 0.6724431569576875
            else
              assert c == 215; 0.6795424696330938
          else
            if c <= 216 then
              assert c == 216; 0.6866853124353135
            else
              assert c == 217; 0.6938717612919899
        else
          if c <= 219 then
            if c <= 218 then
              assert c == 218; 0.7011018919329731
            else
              assert c == 219; 0.7083757798916868
          else
            assert c == 220; 0.7156935005064807
  }

  function PowerBranch221(c: int): (v: real)
    requires 221 <= c <= 255
    ensures 0.0 < v <= 1.0
    ensures GammaBase(c) * GammaBase(c) * GammaBase(c) <= v <= GammaBase(c) * GammaBase(c)
  {
    if c <= 238 then
      if c <= 229 then
        if c <= 225 then
          if c <= 223 then
            if c <= 222 then
              if c <= 221 then
                assert c == 221; 0.7230551289219693
              else
                assert c == 222; 0.7304607400903537
            else
              assert c == 223; 0.7379104087727308
          else
            if c <= 224 then
              assert c == 224; 0.7454042095403874
            else
              assert c == 225; 0.7529422167760779
        else
          if c <= 227 then
            if c <= 226 then
              assert c == 226; 0.7605245046752924
            else
              assert c == 227; 0.768151147247507
          else
            if c <= 228 then
              assert c == 228; 0.7758222183174236
            else
              assert c == 229; 0.7835377915261935
      else
        if c <= 234 then
          if c <= 232 then
            if c <= 231 then
              if c <= 230 then
                assert c == 230; 0.7912979403326302
              else
                assert c == 231; 0.799102738014409
            else
              assert c == 232; 0.8069522576692516
          else
            if c <= 233 then
              assert c == 233; 0.8148465722161012
            else
              assert c == 234; 0.8227857543962835
        else
          if c <= 236 then
            if c <= 235 then
              assert c == 235; 0.8307698767746546
            else
              assert c == 236; 0.83879901174074
          else
            if c <= 237 then
              assert c == 237; 0.846873231509858
            else
              assert c == 238; 0.8549926081242338
    else
      if c <= 247 then
        if c <= 243 then
          if c <= 241 then
            if c <= 240 then
              if c <= 239 then
                assert c == 239; 0.8631572134541023
              else
                assert c == 240; 0.8713671191987972
            else
              assert c == 241; 0.8796223968878317
          else
            if c <= 242 then
              assert c == 242; 0.8879231178819663
            else
              assert c == 243; 0.8962693533742664
        else
          if c <= 245 then
            if c <= 244 then
              assert c == 244; 0.9046611743911496
            else
              assert c == 245; 0.9130986517934192
          else
            if c <= 246 then
              assert c == 246; 0.9215818562772946
            else
              assert c == 247; 0.9301108583754237
      else
        if c <= 251 then
          if c <= 249 then
            if c <= 248 then
              assert c == 248; 0.938685728457888
            else
              assert c == 249; 0.9473065367331999
          else
            if c <= 250 then
              assert c == 250; 0.9559733532492861
            else
              assert c == 251; 0.9646862478944651
        else
          if c <= 253 then
            if c <= 252 then
              assert c == 252; 0.9734452903984125
            else
              assert c == 253; 0.9822505503331171
          else
            if c <= 254 then
              assert c == 254; 0.9911020971138298
            else
              assert c == 255; 1.0
  }

  // ---------------------------------------------------------------------------------------
  // The curve rises: each channel maps above the one before it

  lemma Rises11(c: int)
    requires 11 <= c < 40
    ensures PowerBranch11(c) < PowerBranch11(c + 1)
  {
  }

  lemma Rises41(c: int)
    requires 41 <= c < 70
    ensures PowerBranch41(c) < PowerBranch41(c + 1)
  {
  }

  lemma Rises71(c: int)
    requires 71 <= c < 100
    ensures PowerBranch71(c) < PowerBranch71(c + 1)
  {
  }

  lemma Rises101(c: int)
    requires 101 <= c < 130
    ensures PowerBranch101(c) < PowerBranch101(c + 1)
  {
  }

  lemma Rises131(c: int)
    requires 131 <= c < 160
    ensures PowerBranch131(c) < PowerBranch131(c + 1)
  {
  }

  lemma Rises161(c: int)
    requires 161 <= c < 190
    ensures PowerBranch161(c) < PowerBranch161(c + 1)
  {
  }

  lemma Rises191(c: int)
    requires 191 <= c < 220
    ensures PowerBranch191(c) < PowerBranch191(c + 1)
  {
  }

  lemma Rises221(c: int)
    requires 221 <= c < 255
    ensures PowerBranch221(c) < PowerBranch221(c + 1)
  {
  }

  /** Consecutive channels, within a table or across two, map to increasing values. */
  lemma PowerBranchRises(c: int)
    requires 11 <= c < 255
    ensures PowerBranch(c) < PowerBranch(c + 1)
  {
    if c < 40 {
      Rises11(c);
    } else if c == 40 {
      assert PowerBranch11(40) < PowerBranch41(41);
    } else if c < 70 {
      Rises41(c);
    } else if c == 70 {
      assert PowerBranch41(70) < PowerBranch71(71);
    } else if c < 100 {
      Rises71(c);
    } else if c == 100 {
      assert PowerBranch71(100) < PowerBranch101(101);
    } else if c < 130 {
      Rises101(c);
    } else if c == 130 {
      assert PowerBranch101(130) < PowerBranch131(131);
    } else if c < 160 {
      Rises131(c);
    } else if c == 160 {
      assert PowerBranch131(160) < PowerBranch161(161);
    } else if c < 190 {
      Rises161(c);
    } else if c == 190 {
      assert PowerBranch161(190) < PowerBranch191(191);
    } else if c < 220 {
      Rises191(c);
    } else if c == 220 {
      assert PowerBranch191(220) < PowerBranch221(221);
    } else {
      Rises221(c);
    }
  }
}
