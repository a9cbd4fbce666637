/** The generator of the blob's points is the standard root of unity of order 4096, established by computation. */
module RootCertificate {
  import opened BlsCertificate
  import opened NumberTheory

  /** `7^d` for one base-four digit. */
  function SevenTo(d: nat): nat
    requires d < 4
  {
    if d == 0 then 1 else if d == 1 then 7 else if d == 2 then 49 else 343
  }

  lemma SevenToIs(d: nat)
    requires d < 4
    ensures SevenTo(d) == Pow(7, d)
  {
    assert Pow(7, 1) == 7 * Pow(7, 0);
    assert Pow(7, 2) == 7 * Pow(7, 1);
    assert Pow(7, 3) == 7 * Pow(7, 2);
  }

  /** One step of the exponentiation of seven, where `d` is the next digit of the exponent. */
  lemma RootStep(e: nat, c: nat, d: nat, next: nat) returns (e': nat)
    requires d < 4 && Congruent(Pow(7, e), c, BLS_MODULUS)
    requires c * c * (c * c) * SevenTo(d) % BLS_MODULUS == next
    ensures e' == 4 * e + d
    ensures Congruent(Pow(7, e'), next, BLS_MODULUS)
  {
    hide Pow, SevenTo;
    var m, t, f := BLS_MODULUS, SevenTo(d), c * c * (c * c);
    e' := 4 * e + d;
    PowAdd(7, 4 * e, d);
    SevenToIs(d);
    FourthPower(7, e, c);
    CongruentMul(Pow(7, 4 * e), f, t, t, m);
    CongruentMod(f * t, m);
  }

  lemma Root0(e: nat) returns (e': nat)
    requires Congruent(Pow(7, e), 1, BLS_MODULUS)
    ensures e' == 256 * e + 115
    ensures Congruent(Pow(7, e'), 50812959634798886647946896004561157400029061343721986663699157761528182262319, BLS_MODULUS)
  {
    hide Pow, Congruent;
    e' := e;
    e' := RootStep(e', 1, 1, 7);
    e' := RootStep(e', 7, 3, 823543);
    e' := RootStep(e', 823543, 0, 459986536544739960976801);
    e' := RootStep(e', 459986536544739960976801, 3, 50812959634798886647946896004561157400029061343721986663699157761528182262319);
  }

  lemma Root1(e: nat) returns (e': nat)
    requires Congruent(Pow(7, e), 50812959634798886647946896004561157400029061343721986663699157761528182262319, BLS_MODULUS)
    ensures e' == 256 * e + 237
    ensures Congruent(Pow(7, e'), 14347835172965473863033084039200119740040465831312137516115477316407846868042, BLS_MODULUS)
  {
    hide Pow, Congruent;
    e' := e;
    e' := RootStep(e', 50812959634798886647946896004561157400029061343721986663699157761528182262319, 3, 46460523878899133695987356687739964248955257032461749418494916568605936171475);
    e' := RootStep(e', 46460523878899133695987356687739964248955257032461749418494916568605936171475, 2, 46310834301184855689776880926486663263207947624631662199286124021737585626228);
    e' := RootStep(e', 46310834301184855689776880926486663263207947624631662199286124021737585626228, 3, 13431437839960019589404610549249061508729351596255741380795413501395783689639);
    e' := RootStep(e', 13431437839960019589404610549249061508729351596255741380795413501395783689639, 1, 14347835172965473863033084039200119740040465831312137516115477316407846868042);
  }

  lemma Root2(e: nat) returns (e': nat)
    requires Congruent(Pow(7, e), 14347835172965473863033084039200119740040465831312137516115477316407846868042, BLS_MODULUS)
    ensures e' == 256 * e + 167
    ensures Congruent(Pow(7, e'), 51952376253812673265732412005851436247931678807156493457568461864570347614267, BLS_MODULUS)
  {
    hide Pow, Congruent;
    e' := e;
    e' := RootStep(e', 14347835172965473863033084039200119740040465831312137516115477316407846868042, 2, 22816540351633602738192130541066621712366663107624345430205656830477168492618);
    e' := RootStep(e', 22816540351633602738192130541066621712366663107624345430205656830477168492618, 2, 31535378746210068166376978443802018445901671804246729203715267642439510779338);
    e' := RootStep(e', 31535378746210068166376978443802018445901671804246729203715267642439510779338, 1, 44881336919244681448480810312773607757274225662442272623329356618898640995967);
    e' := RootStep(e', 44881336919244681448480810312773607757274225662442272623329356618898640995967, 3, 51952376253812673265732412005851436247931678807156493457568461864570347614267);
  }

  lemma Root3(e: nat) returns (e': nat)
    requires Congruent(Pow(7, e), 51952376253812673265732412005851436247931678807156493457568461864570347614267, BLS_MODULUS)
    ensures e' == 256 * e + 83
    ensures Congruent(Pow(7, e'), 2526808823005373797174447963095479949139728424835878967499012127195204095373, BLS_MODULUS)
  {
    hide Pow, Congruent;
    e' := e;
    e' := RootStep(e', 51952376253812673265732412005851436247931678807156493457568461864570347614267, 1, 47791987846355897988884122250528721661649083318960009073962462666272474309215);
    e' := RootStep(e', 47791987846355897988884122250528721661649083318960009073962462666272474309215, 1, 22087431366097330222119942327715581974590672885760721692330702459508896909672);
    e' := RootStep(e', 22087431366097330222119942327715581974590672885760721692330702459508896909672, 0, 6338257377187619480922960761350821061868224835500540596173938196809178259424);
    e' := RootStep(e', 6338257377187619480922960761350821061868224835500540596173938196809178259424, 3, 2526808823005373797174447963095479949139728424835878967499012127195204095373);
  }

  lemma Root4(e: nat) returns (e': nat)
    requires Congruent(Pow(7, e), 2526808823005373797174447963095479949139728424835878967499012127195204095373, BLS_MODULUS)
    ensures e' == 256 * e + 41
    ensures Congruent(Pow(7, e'), 25117426549959376921652756820133717039028974363434382187968249731445426098870, BLS_MODULUS)
  {
    hide Pow, Congruent;
    e' := e;
    e' := RootStep(e', 2526808823005373797174447963095479949139728424835878967499012127195204095373, 0, 10150605306331240441937819007687316038997203598771093090557901838603731746605);
    e' := RootStep(e', 10150605306331240441937819007687316038997203598771093090557901838603731746605, 2, 37100679812520719956698407783306023094283257414602917128225778234092011481356);
    e' := RootStep(e', 37100679812520719956698407783306023094283257414602917128225778234092011481356, 2, 50297304383077481868165198493211079897914074961879868443490505621345974652915);
    e' := RootStep(e', 50297304383077481868165198493211079897914074961879868443490505621345974652915, 1, 25117426549959376921652756820133717039028974363434382187968249731445426098870);
  }

  lemma Root5(e: nat) returns (e': nat)
    requires Congruent(Pow(7, e), 25117426549959376921652756820133717039028974363434382187968249731445426098870, BLS_MODULUS)
    ensures e' == 256 * e + 157
    ensures Congruent(Pow(7, e'), 34403836004423702438555964152452007720155779881266299735849353170574363785152, BLS_MODULUS)
  {
    hide Pow, Congruent;
    e' := e;
    e' := RootStep(e', 25117426549959376921652756820133717039028974363434382187968249731445426098870, 2, 29925677593997698923132654374637653498477698703767858753811036595634963234104);
    e' := RootStep(e', 29925677593997698923132654374637653498477698703767858753811036595634963234104, 1, 8776411495517646501078227222350850928284293915788283702100199016651135073692);
    e' := RootStep(e', 8776411495517646501078227222350850928284293915788283702100199016651135073692, 3, 16662167121720172397775424717515234668307909792228464973243125581951564248940);
    e' := RootStep(e', 16662167121720172397775424717515234668307909792228464973243125581951564248940, 1, 34403836004423702438555964152452007720155779881266299735849353170574363785152);
  }

  lemma Root6(e: nat) returns (e': nat)
    requires Congruent(Pow(7, e), 34403836004423702438555964152452007720155779881266299735849353170574363785152, BLS_MODULUS)
    ensures e' == 256 * e + 125
    ensures Congruent(Pow(7, e'), 40373193841024578025190287323777666423306333795241090276362664318259754304254, BLS_MODULUS)
  {
    hide Pow, Congruent;
    e' := e;
    e' := RootStep(e', 34403836004423702438555964152452007720155779881266299735849353170574363785152, 1, 8796384226471656762541333576857795885562154788817511438249804720186062002441);
    e' := RootStep(e', 8796384226471656762541333576857795885562154788817511438249804720186062002441, 3, 31497111077883483530421911333661905148317039009951516868592792576893561696826);
    e' := RootStep(e', 31497111077883483530421911333661905148317039009951516868592792576893561696826, 3, 27563809226258302456832040571597077413473141779755403281714696506545559632484);
    e' := RootStep(e', 27563809226258302456832040571597077413473141779755403281714696506545559632484, 1, 40373193841024578025190287323777666423306333795241090276362664318259754304254);
  }

  lemma Root7(e: nat) returns (e': nat)
    requires Congruent(Pow(7, e), 40373193841024578025190287323777666423306333795241090276362664318259754304254, BLS_MODULUS)
    ensures e' == 256 * e + 72
    ensures Congruent(Pow(7, e'), 565288174552152271382022056477377743536699998195153647960848897446522389495, BLS_MODULUS)
  {
    hide Pow, Congruent;
    e' := e;
    e' := RootStep(e', 40373193841024578025190287323777666423306333795241090276362664318259754304254, 1, 26706463779542849200410041322618087935261705815042524575252946409190233973831);
    e' := RootStep(e', 26706463779542849200410041322618087935261705815042524575252946409190233973831, 0, 22271208203811712892065603975171476400575243446436565825002129509164270574220);
    e' := RootStep(e', 22271208203811712892065603975171476400575243446436565825002129509164270574220, 2, 16997562554633069491027547104628413592728860559060324608741804946701517626228);
    e' := RootStep(e', 16997562554633069491027547104628413592728860559060324608741804946701517626228, 0, 565288174552152271382022056477377743536699998195153647960848897446522389495);
  }

  lemma Root8(e: nat) returns (e': nat)
    requires Congruent(Pow(7, e), 565288174552152271382022056477377743536699998195153647960848897446522389495, BLS_MODULUS)
    ensures e' == 256 * e + 51
    ensures Congruent(Pow(7, e'), 24571893010855614934063231611460299117618887489813918134487090635242448415354, BLS_MODULUS)
  {
    hide Pow, Congruent;
    e' := e;
    e' := RootStep(e', 565288174552152271382022056477377743536699998195153647960848897446522389495, 0, 4657578438477497526011666404425691202604317455406874705372936749212068589018);
    e' := RootStep(e', 4657578438477497526011666404425691202604317455406874705372936749212068589018, 3, 23425686325917846270897495180160796744734593067956641557023436880805560142064);
    e' := RootStep(e', 23425686325917846270897495180160796744734593067956641557023436880805560142064, 0, 39943013088723629852982319558761706776467528578223889287145769839448371371264);
    e' := RootStep(e', 39943013088723629852982319558761706776467528578223889287145769839448371371264, 3, 24571893010855614934063231611460299117618887489813918134487090635242448415354);
  }

  lemma Root9(e: nat) returns (e': nat)
    requires Congruent(Pow(7, e), 24571893010855614934063231611460299117618887489813918134487090635242448415354, BLS_MODULUS)
    ensures e' == 256 * e + 57
    ensures Congruent(Pow(7, e'), 15433183569551983735111267301027695917601047432844765533343475422999966846079, BLS_MODULUS)
  {
    hide Pow, Congruent;
    e' := e;
    e' := RootStep(e', 24571893010855614934063231611460299117618887489813918134487090635242448415354, 0, 20211043734294855002994916478447835319796151361574642952941447308393405313716);
    e' := RootStep(e', 20211043734294855002994916478447835319796151361574642952941447308393405313716, 3, 10976846537693332356911523268348386138100679047422367152936488733980975977003);
    e' := RootStep(e', 10976846537693332356911523268348386138100679047422367152936488733980975977003, 2, 37167175286514574705811928457362264955584123510870705631336382075456213737660);
    e' := RootStep(e', 37167175286514574705811928457362264955584123510870705631336382075456213737660, 1, 15433183569551983735111267301027695917601047432844765533343475422999966846079);
  }

  lemma Root10(e: nat) returns (e': nat)
    requires Congruent(Pow(7, e), 15433183569551983735111267301027695917601047432844765533343475422999966846079, BLS_MODULUS)
    ensures e' == 256 * e + 216
    ensures Congruent(Pow(7, e'), 38019113707809371032489532029213613753089180651533624521192486947878628947025, BLS_MODULUS)
  {
    hide Pow, Congruent;
    e' := e;
    e' := RootStep(e', 15433183569551983735111267301027695917601047432844765533343475422999966846079, 3, 41945473556435827182775198126269713213109501154821287954778351034972582923583);
    e' := RootStep(e', 41945473556435827182775198126269713213109501154821287954778351034972582923583, 1, 3957653391360717405892493203175109804293249520883102714012034004273627860401);
    e' := RootStep(e', 3957653391360717405892493203175109804293249520883102714012034004273627860401, 2, 30755038176274359538707700483094758817941076190119439227326562709452047673514);
    e' := RootStep(e', 30755038176274359538707700483094758817941076190119439227326562709452047673514, 0, 38019113707809371032489532029213613753089180651533624521192486947878628947025);
  }

  lemma Root11(e: nat) returns (e': nat)
    requires Congruent(Pow(7, e), 38019113707809371032489532029213613753089180651533624521192486947878628947025, BLS_MODULUS)
    ensures e' == 256 * e + 8
    ensures Congruent(Pow(7, e'), 21835199336475517559214094233420530427943091092922032493258427531138530132224, BLS_MODULUS)
  {
    hide Pow, Congruent;
    e' := e;
    e' := RootStep(e', 38019113707809371032489532029213613753089180651533624521192486947878628947025, 0, 37935520921000092017666583823337636937716882453404269097902628930753486591623);
    e' := RootStep(e', 37935520921000092017666583823337636937716882453404269097902628930753486591623, 0, 47914997526756992310922113611061941628351932418964410845403981778185161728044);
    e' := RootStep(e', 47914997526756992310922113611061941628351932418964410845403981778185161728044, 2, 32967251891899736109226602016829831778896761804446605788042773073206016019764);
    e' := RootStep(e', 32967251891899736109226602016829831778896761804446605788042773073206016019764, 0, 21835199336475517559214094233420530427943091092922032493258427531138530132224);
  }

  lemma Root12(e: nat) returns (e': nat)
    requires Congruent(Pow(7, e), 21835199336475517559214094233420530427943091092922032493258427531138530132224, BLS_MODULUS)
    ensures e' == 256 * e + 9
    ensures Congruent(Pow(7, e'), 38765884796435018477635328808594593042733872593092892367526099213547604231239, BLS_MODULUS)
  {
    hide Pow, Congruent;
    e' := e;
    e' := RootStep(e', 21835199336475517559214094233420530427943091092922032493258427531138530132224, 0, 19808391940299695280421066020666180166280141364439361754570393626483478651576);
    e' := RootStep(e', 19808391940299695280421066020666180166280141364439361754570393626483478651576, 0, 23278330897705588261350485006070682381231933991218796140719356708354887460247);
    e' := RootStep(e', 23278330897705588261350485006070682381231933991218796140719356708354887460247, 2, 22595109106074254807980650404784657385676579005013171773178992831804177347804);
    e' := RootStep(e', 22595109106074254807980650404784657385676579005013171773178992831804177347804, 1, 38765884796435018477635328808594593042733872593092892367526099213547604231239);
  }

  lemma Root13(e: nat) returns (e': nat)
    requires Congruent(Pow(7, e), 38765884796435018477635328808594593042733872593092892367526099213547604231239, BLS_MODULUS)
    ensures e' == 256 * e + 161
    ensures Congruent(Pow(7, e'), 36739675521050426213345312566328337079689248827389986992862889072011489010722, BLS_MODULUS)
  {
    hide Pow, Congruent;
    e' := e;
    e' := RootStep(e', 38765884796435018477635328808594593042733872593092892367526099213547604231239, 2, 18996739460515147076423455509054172907975932597312516419520789543006076186614);
    e' := RootStep(e', 18996739460515147076423455509054172907975932597312516419520789543006076186614, 2, 25299123223245289147113218717549820050761615500983126373233727440569813902068);
    e' := RootStep(e', 25299123223245289147113218717549820050761615500983126373233727440569813902068, 0, 25275871616732425965107811431177325292032598799246468719055663389277864501179);
    e' := RootStep(e', 25275871616732425965107811431177325292032598799246468719055663389277864501179, 1, 36739675521050426213345312566328337079689248827389986992862889072011489010722);
  }

  lemma Root14(e: nat) returns (e': nat)
    requires Congruent(Pow(7, e), 36739675521050426213345312566328337079689248827389986992862889072011489010722, BLS_MODULUS)
    ensures e' == 256 * e + 216
    ensures Congruent(Pow(7, e'), 38481307787753392522253001223883634391173231415394935813110930167728311917975, BLS_MODULUS)
  {
    hide Pow, Congruent;
    e' := e;
    e' := RootStep(e', 36739675521050426213345312566328337079689248827389986992862889072011489010722, 3, 52368486005004445901498289157249767680214224095034561656939864186894412298180);
    e' := RootStep(e', 52368486005004445901498289157249767680214224095034561656939864186894412298180, 1, 43335488285368492333231550996365433744327761002446203467979091262997427523289);
    e' := RootStep(e', 43335488285368492333231550996365433744327761002446203467979091262997427523289, 2, 16551347060367486694307856872633941826601203475303021109946213704736829675924);
    e' := RootStep(e', 16551347060367486694307856872633941826601203475303021109946213704736829675924, 0, 38481307787753392522253001223883634391173231415394935813110930167728311917975);
  }

  lemma Root15(e: nat) returns (e': nat)
    requires Congruent(Pow(7, e), 38481307787753392522253001223883634391173231415394935813110930167728311917975, BLS_MODULUS)
    ensures e' == 256 * e + 5
    ensures Congruent(Pow(7, e'), 1371148495702234373441215125374693964141871882802590648997853172497591121638, BLS_MODULUS)
  {
    hide Pow, Congruent;
    e' := e;
    e' := RootStep(e', 38481307787753392522253001223883634391173231415394935813110930167728311917975, 0, 41140925551034058183149055783148645804836839947613851619060351353197018381850);
    e' := RootStep(e', 41140925551034058183149055783148645804836839947613851619060351353197018381850, 0, 16154868315698689362488952082761953726183940424043183241619478905724394324651);
    e' := RootStep(e', 16154868315698689362488952082761953726183940424043183241619478905724394324651, 1, 6666402553027213267329252434891330151794433134955090914934298527137623338833);
    e' := RootStep(e', 6666402553027213267329252434891330151794433134955090914934298527137623338833, 1, 1371148495702234373441215125374693964141871882802590648997853172497591121638);
  }

  lemma Root16(e: nat) returns (e': nat)
    requires Congruent(Pow(7, e), 1371148495702234373441215125374693964141871882802590648997853172497591121638, BLS_MODULUS)
    ensures e' == 256 * e + 83
    ensures Congruent(Pow(7, e'), 11090466188404625446314413309260105554419971956829133628521280277352587165854, BLS_MODULUS)
  {
    hide Pow, Congruent;
    e' := e;
    e' := RootStep(e', 1371148495702234373441215125374693964141871882802590648997853172497591121638, 1, 38115701501048530952309394923963229086108497449235868469746884313478459268797);
    e' := RootStep(e', 38115701501048530952309394923963229086108497449235868469746884313478459268797, 1, 21778022368457368648198299600654585696178304177639630217771807917314360227778);
    e' := RootStep(e', 21778022368457368648198299600654585696178304177639630217771807917314360227778, 0, 34032005521589243953551211807338074720430726273982663774537565802974194160483);
    e' := RootStep(e', 34032005521589243953551211807338074720430726273982663774537565802974194160483, 3, 11090466188404625446314413309260105554419971956829133628521280277352587165854);
  }

  lemma Root17(e: nat) returns (e': nat)
    requires Congruent(Pow(7, e), 11090466188404625446314413309260105554419971956829133628521280277352587165854, BLS_MODULUS)
    ensures e' == 256 * e + 189
    ensures Congruent(Pow(7, e'), 44852285298767538744346144646214544839588347766095114652575487861611014797788, BLS_MODULUS)
  {
    hide Pow, Congruent;
    e' := e;
    e' := RootStep(e', 11090466188404625446314413309260105554419971956829133628521280277352587165854, 2, 15200334974922747894890033466671805407067263259926356640465325132353582796834);
    e' := RootStep(e', 15200334974922747894890033466671805407067263259926356640465325132353582796834, 3, 19049365470856218461330147942944690601563669301921386801312145202484309854387);
    e' := RootStep(e', 19049365470856218461330147942944690601563669301921386801312145202484309854387, 3, 51133873770160066763648849730134247296484746740596571789572555294487553536554);
    e' := RootStep(e', 51133873770160066763648849730134247296484746740596571789572555294487553536554, 1, 44852285298767538744346144646214544839588347766095114652575487861611014797788);
  }

  lemma Root18(e: nat) returns (e': nat)
    requires Congruent(Pow(7, e), 44852285298767538744346144646214544839588347766095114652575487861611014797788, BLS_MODULUS)
    ensures e' == 256 * e + 164
    ensures Congruent(Pow(7, e'), 51085352287425770091026610913705744602335366848435545096609145789671802491262, BLS_MODULUS)
  {
    hide Pow, Congruent;
    e' := e;
    e' := RootStep(e', 44852285298767538744346144646214544839588347766095114652575487861611014797788, 2, 15706582960282018882760856691250972949868973461603787367011306876684012984898);
    e' := RootStep(e', 15706582960282018882760856691250972949868973461603787367011306876684012984898, 2, 14144776024585620677430423064124915514613108285936437970715572548592045470351);
    e' := RootStep(e', 14144776024585620677430423064124915514613108285936437970715572548592045470351, 1, 17092249917983703716995540755714419794127720815296228593356987370172632986447);
    e' := RootStep(e', 17092249917983703716995540755714419794127720815296228593356987370172632986447, 0, 51085352287425770091026610913705744602335366848435545096609145789671802491262);
  }

  lemma Root19(e: nat) returns (e': nat)
    requires Congruent(Pow(7, e), 51085352287425770091026610913705744602335366848435545096609145789671802491262, BLS_MODULUS)
    ensures e' == 256 * e + 2
    ensures Congruent(Pow(7, e'), 45291391690054139224217119448804299865867130408038107664617291782899197523146, BLS_MODULUS)
  {
    hide Pow, Congruent;
    e' := e;
    e' := RootStep(e', 51085352287425770091026610913705744602335366848435545096609145789671802491262, 0, 7277079948485887386689940974511613936714952664303728680670231621864495526842);
    e' := RootStep(e', 7277079948485887386689940974511613936714952664303728680670231621864495526842, 0, 20405372144233404303069218904579989655160810999593845137460024578571392214326);
    e' := RootStep(e', 20405372144233404303069218904579989655160810999593845137460024578571392214326, 0, 13263852207060915158847656871423838870474781633145560681147392803409601831794);
    e' := RootStep(e', 13263852207060915158847656871423838870474781633145560681147392803409601831794, 2, 45291391690054139224217119448804299865867130408038107664617291782899197523146);
  }

  lemma Root20(e: nat) returns (e': nat)
    requires Congruent(Pow(7, e), 45291391690054139224217119448804299865867130408038107664617291782899197523146, BLS_MODULUS)
    ensures e' == 256 * e + 255
    ensures Congruent(Pow(7, e'), 5143854172150702302254462136909442628158985275788322267556484079709305119915, BLS_MODULUS)
  {
    hide Pow, Congruent;
    e' := e;
    e' := RootStep(e', 45291391690054139224217119448804299865867130408038107664617291782899197523146, 3, 28776670783747114026534882668307993373165846638176145418772569029459320295064);
    e' := RootStep(e', 28776670783747114026534882668307993373165846638176145418772569029459320295064, 3, 30088115989119864239061435054400125271397481708345444082842218471473253357019);
    e' := RootStep(e', 30088115989119864239061435054400125271397481708345444082842218471473253357019, 3, 50834714646814265077140495704844328125088195280266756423317586827533779791949);
    e' := RootStep(e', 50834714646814265077140495704844328125088195280266756423317586827533779791949, 3, 5143854172150702302254462136909442628158985275788322267556484079709305119915);
  }

  lemma Root21(e: nat) returns (e': nat)
    requires Congruent(Pow(7, e), 5143854172150702302254462136909442628158985275788322267556484079709305119915, BLS_MODULUS)
    ensures e' == 256 * e + 254
    ensures Congruent(Pow(7, e'), 22127622315854843200459329920983835617392452180234416376969667893760890541734, BLS_MODULUS)
  {
    hide Pow, Congruent;
    e' := e;
    e' := RootStep(e', 5143854172150702302254462136909442628158985275788322267556484079709305119915, 3, 6851476658526854076214872777170615889857437907819697324633771952909006352551);
    e' := RootStep(e', 6851476658526854076214872777170615889857437907819697324633771952909006352551, 3, 15261188860948225230936826354494812263179472493877213053958824417238147925618);
    e' := RootStep(e', 15261188860948225230936826354494812263179472493877213053958824417238147925618, 3, 10935451115898252832029922836756767874915720993674947302917857418300264918824);
    e' := RootStep(e', 10935451115898252832029922836756767874915720993674947302917857418300264918824, 2, 22127622315854843200459329920983835617392452180234416376969667893760890541734);
  }

  lemma Root22(e: nat) returns (e': nat)
    requires Congruent(Pow(7, e), 22127622315854843200459329920983835617392452180234416376969667893760890541734, BLS_MODULUS)
    ensures e' == 256 * e + 91
    ensures Congruent(Pow(7, e'), 659054188750636056158028054287713014593033628329180317893660854249123918938, BLS_MODULUS)
  {
    hide Pow, Congruent;
    e' := e;
    e' := RootStep(e', 22127622315854843200459329920983835617392452180234416376969667893760890541734, 1, 9090139563474135265571092711920500487800849296381320422997274830993668404899);
    e' := RootStep(e', 9090139563474135265571092711920500487800849296381320422997274830993668404899, 1, 7738432163784744825310947252845018001114395468986886352366051847315771252183);
    e' := RootStep(e', 7738432163784744825310947252845018001114395468986886352366051847315771252183, 2, 52052614916732026438494395807962988545382734338042726186762901359303970799051);
    e' := RootStep(e', 52052614916732026438494395807962988545382734338042726186762901359303970799051, 3, 659054188750636056158028054287713014593033628329180317893660854249123918938);
  }

  lemma Root23(e: nat) returns (e': nat)
    requires Congruent(Pow(7, e), 659054188750636056158028054287713014593033628329180317893660854249123918938, BLS_MODULUS)
    ensures e' == 256 * e + 254
    ensures Congruent(Pow(7, e'), 8972182163159280585710768820689105444765793574402337251583361137192289601116, BLS_MODULUS)
  {
    hide Pow, Congruent;
    e' := e;
    e' := RootStep(e', 659054188750636056158028054287713014593033628329180317893660854249123918938, 3, 23352114148843498112996071260453874110783258415379525143815897556256272377723);
    e' := RootStep(e', 23352114148843498112996071260453874110783258415379525143815897556256272377723, 3, 15515010591326812294883218796287248805840149609691725026032556271818902699091);
    e' := RootStep(e', 15515010591326812294883218796287248805840149609691725026032556271818902699091, 3, 11397200185513235644289810330266897495527326046657489872301695510034974147944);
    e' := RootStep(e', 11397200185513235644289810330266897495527326046657489872301695510034974147944, 2, 8972182163159280585710768820689105444765793574402337251583361137192289601116);
  }

  lemma Root24(e: nat) returns (e': nat)
    requires Congruent(Pow(7, e), 8972182163159280585710768820689105444765793574402337251583361137192289601116, BLS_MODULUS)
    ensures e' == 256 * e + 255
    ensures Congruent(Pow(7, e'), 11837317643417772487273371511212007714633713229731352482253371925756036793802, BLS_MODULUS)
  {
    hide Pow, Congruent;
    e' := e;
    e' := RootStep(e', 8972182163159280585710768820689105444765793574402337251583361137192289601116, 3, 38714807310035404309570935439969805065862584246411836485770409685714868722103);
    e' := RootStep(e', 38714807310035404309570935439969805065862584246411836485770409685714868722103, 3, 35571002038026555529016270026624514473846332084993757528777535962638663273673);
    e' := RootStep(e', 35571002038026555529016270026624514473846332084993757528777535962638663273673, 3, 46018529888859026547212363532683851929823706736308097084387164201376581001204);
    e' := RootStep(e', 46018529888859026547212363532683851929823706736308097084387164201376581001204, 3, 11837317643417772487273371511212007714633713229731352482253371925756036793802);
  }

  lemma Root25(e: nat) returns (e': nat)
    requires Congruent(Pow(7, e), 11837317643417772487273371511212007714633713229731352482253371925756036793802, BLS_MODULUS)
    ensures e' == 256 * e + 255
    ensures Congruent(Pow(7, e'), 35284199933448902458228813750973327148651658386833033668020053803432690943134, BLS_MODULUS)
  {
    hide Pow, Congruent;
    e' := e;
    e' := RootStep(e', 11837317643417772487273371511212007714633713229731352482253371925756036793802, 3, 45365437897972007061297817217815692088344944061886358697961860399984895394370);
    e' := RootStep(e', 45365437897972007061297817217815692088344944061886358697961860399984895394370, 3, 46005920749221667463302396374948224538071030422767555785667050078149230632702);
    e' := RootStep(e', 46005920749221667463302396374948224538071030422767555785667050078149230632702, 3, 14802557994176207858381293879232154356623464400922009970247142579442711191981);
    e' := RootStep(e', 14802557994176207858381293879232154356623464400922009970247142579442711191981, 3, 35284199933448902458228813750973327148651658386833033668020053803432690943134);
  }

  lemma Root26(e: nat) returns (e': nat)
    requires Congruent(Pow(7, e), 35284199933448902458228813750973327148651658386833033668020053803432690943134, BLS_MODULUS)
    ensures e' == 256 * e + 255
    ensures Congruent(Pow(7, e'), 34246187675440476899327664009660315563868021928564105165152255874834127378576, BLS_MODULUS)
  {
    hide Pow, Congruent;
    e' := e;
    e' := RootStep(e', 35284199933448902458228813750973327148651658386833033668020053803432690943134, 3, 22124677157508605893849144178750996373015530314627408980492711890894363941889);
    e' := RootStep(e', 22124677157508605893849144178750996373015530314627408980492711890894363941889, 3, 47861337087193486788367863594879277694567398485228449555499705315353469159162);
    e' := RootStep(e', 47861337087193486788367863594879277694567398485228449555499705315353469159162, 3, 6093526790530323546791854843081834381041236663911866719716977535196949276139);
    e' := RootStep(e', 6093526790530323546791854843081834381041236663911866719716977535196949276139, 3, 34246187675440476899327664009660315563868021928564105165152255874834127378576);
  }

  lemma Root27(e: nat) returns (e': nat)
    requires Congruent(Pow(7, e), 34246187675440476899327664009660315563868021928564105165152255874834127378576, BLS_MODULUS)
    ensures e' == 256 * e + 255
    ensures Congruent(Pow(7, e'), 10238227357739495823651030575849232062558860180284477541189508159991286009131, BLS_MODULUS)
  {
    hide Pow, Congruent;
    e' := e;
    e' := RootStep(e', 34246187675440476899327664009660315563868021928564105165152255874834127378576, 3, 51923271797565088984694433709928514808237031441724767807473304973948299351613);
    e' := RootStep(e', 51923271797565088984694433709928514808237031441724767807473304973948299351613, 3, 26382744460655935410426741744085303648271447172302779042480817558572255037091);
    e' := RootStep(e', 26382744460655935410426741744085303648271447172302779042480817558572255037091, 3, 4661929794514414368603409354767823136889358938039667838377326458703263268224);
    e' := RootStep(e', 4661929794514414368603409354767823136889358938039667838377326458703263268224, 3, 10238227357739495823651030575849232062558860180284477541189508159991286009131);
  }

  lemma Root28(e: nat) returns (e': nat)
    requires Congruent(Pow(7, e), 10238227357739495823651030575849232062558860180284477541189508159991286009131, BLS_MODULUS)
    ensures e' == 256 * e + 0
    ensures Congruent(Pow(7, e'), 18596002123094854211120822350746157678791770803088570110573239418060655130524, BLS_MODULUS)
  {
    hide Pow, Congruent;
    e' := e;
    e' := RootStep(e', 10238227357739495823651030575849232062558860180284477541189508159991286009131, 0, 20094891866007995289136270587723853997043774683345353712639419774914899074390);
    e' := RootStep(e', 20094891866007995289136270587723853997043774683345353712639419774914899074390, 0, 37480612446576615530266821837655054090426372233228960378061628060638903214217);
    e' := RootStep(e', 37480612446576615530266821837655054090426372233228960378061628060638903214217, 0, 4541622677469846713471916119560591929733417256448031920623614406126544048514);
    e' := RootStep(e', 4541622677469846713471916119560591929733417256448031920623614406126544048514, 0, 18596002123094854211120822350746157678791770803088570110573239418060655130524);
  }

  lemma Root29(e: nat) returns (e': nat)
    requires Congruent(Pow(7, e), 18596002123094854211120822350746157678791770803088570110573239418060655130524, BLS_MODULUS)
    ensures e' == 256 * e + 0
    ensures Congruent(Pow(7, e'), 15076889834420168339092859836519192632846122361203618639585008852351569017005, BLS_MODULUS)
  {
    hide Pow, Congruent;
    e' := e;
    e' := RootStep(e', 18596002123094854211120822350746157678791770803088570110573239418060655130524, 0, 4859563557044021881916617240989566298388494151979623102977292742331120628579);
    e' := RootStep(e', 4859563557044021881916617240989566298388494151979623102977292742331120628579, 0, 1755840822790712607783180844474754741366353396308200820563736496551326485835);
    e' := RootStep(e', 1755840822790712607783180844474754741366353396308200820563736496551326485835, 0, 20439484849038267462774237595151440867617792718791690563928621375157525968123);
    e' := RootStep(e', 20439484849038267462774237595151440867617792718791690563928621375157525968123, 0, 15076889834420168339092859836519192632846122361203618639585008852351569017005);
  }

  lemma Root30(e: nat) returns (e': nat)
    requires Congruent(Pow(7, e), 15076889834420168339092859836519192632846122361203618639585008852351569017005, BLS_MODULUS)
    ensures e' == 16 * e + 0
    ensures Congruent(Pow(7, e'), 39033254847818212395286706435128746857159659164139250548781411570340225835782, BLS_MODULUS)
  {
    hide Pow, Congruent;
    e' := e;
    e' := RootStep(e', 15076889834420168339092859836519192632846122361203618639585008852351569017005, 0, 39072540533732477250409069030641316533649120504872707460480262653418090977761);
    e' := RootStep(e', 39072540533732477250409069030641316533649120504872707460480262653418090977761, 0, 39033254847818212395286706435128746857159659164139250548781411570340225835782);
  }

  lemma SevenStart() returns (e: nat)
    ensures e == 0 && Congruent(Pow(7, e), 1, BLS_MODULUS)
  {
    e := 0;
  }

  /** The generator is the power of seven whose exponent is one 4096th of the order of the multiplicative group. */
  lemma GeneratorIsRoot()
    ensures (BLS_MODULUS - 1) % 4096 == 0
    ensures Pow(7, (BLS_MODULUS - 1) / 4096) % BLS_MODULUS == GENERATOR
  {
    hide Pow, Congruent;
    var e := SevenStart();
    e := Root0(e);
    e := Root1(e);
    e := Root2(e);
    e := Root3(e);
    e := Root4(e);
    e := Root5(e);
    e := Root6(e);
    e := Root7(e);
    e := Root8(e);
    e := Root9(e);
    e := Root10(e);
    e := Root11(e);
    e := Root12(e);
    e := Root13(e);
    e := Root14(e);
    e := Root15(e);
    e := Root16(e);
    e := Root17(e);
    e := Root18(e);
    e := Root19(e);
    e := Root20(e);
    e := Root21(e);
    e := Root22(e);
    e := Root23(e);
    e := Root24(e);
    e := Root25(e);
    e := Root26(e);
    e := Root27(e);
    e := Root28(e);
    e := Root29(e);
    e := Root30(e);
    assert e == (BLS_MODULUS - 1) / 4096;
    IsGenerator(Pow(7, e));
  }

  lemma IsGenerator(x: int)
    requires Congruent(x, GENERATOR, BLS_MODULUS)
    ensures x % BLS_MODULUS == GENERATOR
  {
  }
}
