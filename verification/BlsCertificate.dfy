/**
  Numeric facts about the EIP-4844 parameters, established by computation.

  Powers are reached two bits of the exponent at a time, so that each step is
  one product of explicit numbers.
 */
module BlsCertificate {
  import opened NumberTheory

  const BLS_MODULUS: nat := 52435875175126190479447740508185965837690552500527637822603658699938581184513
  const GENERATOR: nat := 39033254847818212395286706435128746857159659164139250548781411570340225835782

  lemma FourthPower(b: nat, e: nat, c: nat)
    requires Congruent(Pow(b, e), c, BLS_MODULUS)
    ensures Congruent(Pow(b, 4 * e), c * c * (c * c), BLS_MODULUS)
  {
    var m, y := BLS_MODULUS, Pow(b, e);
    PowAdd(b, e, e);
    PowAdd(b, 2 * e, 2 * e);
    CongruentMul(y, c, y, c, m);
    CongruentMul(y * y, c * c, y * y, c * c, m);
  }

  /** `2^d` for one base-four digit. */
  function SmallPower(d: nat): nat
    requires d < 4
  {
    if d == 0 then 1 else if d == 1 then 2 else if d == 2 then 4 else 8
  }

  lemma SmallPowerIs(d: nat)
    requires d < 4
    ensures SmallPower(d) == Pow(2, d)
  {
    assert Pow(2, 1) == 2 * Pow(2, 0);
    assert Pow(2, 2) == 2 * Pow(2, 1);
    assert Pow(2, 3) == 2 * Pow(2, 2);
  }

  /** One step of the exponentiation of two, where `d` is the next digit of the exponent. */
  lemma Step(e: nat, c: nat, d: nat, next: nat) returns (e': nat)
    requires d < 4 && Congruent(Pow(2, e), c, BLS_MODULUS)
    requires c * c * (c * c) * SmallPower(d) % BLS_MODULUS == next
    ensures e' == 4 * e + d
    ensures Congruent(Pow(2, e'), next, BLS_MODULUS)
  {
    var m, t, f := BLS_MODULUS, SmallPower(d), c * c * (c * c);
    e' := 4 * e + d;
    PowAdd(2, 4 * e, d);
    SmallPowerIs(d);
    FourthPower(2, e, c);
    CongruentMul(Pow(2, 4 * e), f, t, t, m);
    CongruentMod(f * t, m);
  }

  lemma Part0(e: nat) returns (e': nat)
    requires Congruent(Pow(2, e), 1, BLS_MODULUS)
    ensures e' == 256 * e + 115
    ensures Congruent(Pow(2, e'), 41538374868278621028243970633760768, BLS_MODULUS)
  {
    hide Pow, Congruent;
    e' := e;
    e' := Step(e', 1, 1, 2);
    e' := Step(e', 2, 3, 128);
    e' := Step(e', 128, 0, 268435456);
    e' := Step(e', 268435456, 3, 41538374868278621028243970633760768);
  }

  lemma Part1(e: nat) returns (e': nat)
    requires Congruent(Pow(2, e), 41538374868278621028243970633760768, BLS_MODULUS)
    ensures e' == 256 * e + 237
    ensures Congruent(Pow(2, e'), 3380614386028255084310167461918044846632792569545097285965811005451962325870, BLS_MODULUS)
  {
    hide Pow, Congruent;
    e' := e;
    e' := Step(e', 41538374868278621028243970633760768, 3, 38713242411355788735355209912898657236738390912518292432825660638314386382535);
    e' := Step(e', 38713242411355788735355209912898657236738390912518292432825660638314386382535, 2, 33012556473940120374589318941212580046474130611732449852127907999764976004855);
    e' := Step(e', 33012556473940120374589318941212580046474130611732449852127907999764976004855, 3, 39986501586258797304184094261756113799001312196084015936089421513806669163418);
    e' := Step(e', 39986501586258797304184094261756113799001312196084015936089421513806669163418, 1, 3380614386028255084310167461918044846632792569545097285965811005451962325870);
  }

  lemma Part2(e: nat) returns (e': nat)
    requires Congruent(Pow(2, e), 3380614386028255084310167461918044846632792569545097285965811005451962325870, BLS_MODULUS)
    ensures e' == 256 * e + 167
    ensures Congruent(Pow(2, e'), 6685430288012610323934829222918779425522740639350110021350209679915037256502, BLS_MODULUS)
  {
    hide Pow, Congruent;
    e' := e;
    e' := Step(e', 3380614386028255084310167461918044846632792569545097285965811005451962325870, 2, 31717755363619580251379185100494488678049121613466905913186939540527338426468);
    e' := Step(e', 31717755363619580251379185100494488678049121613466905913186939540527338426468, 2, 12926324370090741596730966645425031957702907170473342087059595468812530909719);
    e' := Step(e', 12926324370090741596730966645425031957702907170473342087059595468812530909719, 1, 16685831826131513647263508516453717903323402738482727628121162580921312038696);
    e' := Step(e', 16685831826131513647263508516453717903323402738482727628121162580921312038696, 3, 6685430288012610323934829222918779425522740639350110021350209679915037256502);
  }

  lemma Part3(e: nat) returns (e': nat)
    requires Congruent(Pow(2, e), 6685430288012610323934829222918779425522740639350110021350209679915037256502, BLS_MODULUS)
    ensures e' == 256 * e + 83
    ensures Congruent(Pow(2, e'), 10320997534925265047474026889342310285775481639578900749351846676653116950207, BLS_MODULUS)
  {
    hide Pow, Congruent;
    e' := e;
    e' := Step(e', 6685430288012610323934829222918779425522740639350110021350209679915037256502, 1, 19858561966803147047951216480201083802973636134981159460094930563545085923729);
    e' := Step(e', 19858561966803147047951216480201083802973636134981159460094930563545085923729, 1, 40575464622090228533855449107153947012496625936317085316912765515954133485185);
    e' := Step(e', 40575464622090228533855449107153947012496625936317085316912765515954133485185, 0, 33914169743676833581674138049714748100616001977301273129379817500410843774193);
    e' := Step(e', 33914169743676833581674138049714748100616001977301273129379817500410843774193, 3, 10320997534925265047474026889342310285775481639578900749351846676653116950207);
  }

  lemma Part4(e: nat) returns (e': nat)
    requires Congruent(Pow(2, e), 10320997534925265047474026889342310285775481639578900749351846676653116950207, BLS_MODULUS)
    ensures e' == 256 * e + 41
    ensures Congruent(Pow(2, e'), 4540953854321046357570330178396557086965001538463058741063056075370289870182, BLS_MODULUS)
  {
    hide Pow, Congruent;
    e' := e;
    e' := Step(e', 10320997534925265047474026889342310285775481639578900749351846676653116950207, 0, 45026547699784717086289007915999425037254085807378307123472569237134613127489);
    e' := Step(e', 45026547699784717086289007915999425037254085807378307123472569237134613127489, 2, 24553931701347798563894383374463905369764326293630689187414637602797772441104);
    e' := Step(e', 24553931701347798563894383374463905369764326293630689187414637602797772441104, 2, 22308598826373939458074143347294151948921964207152372184547070749166527736522);
    e' := Step(e', 22308598826373939458074143347294151948921964207152372184547070749166527736522, 1, 4540953854321046357570330178396557086965001538463058741063056075370289870182);
  }

  lemma Part5(e: nat) returns (e': nat)
    requires Congruent(Pow(2, e), 4540953854321046357570330178396557086965001538463058741063056075370289870182, BLS_MODULUS)
    ensures e' == 256 * e + 157
    ensures Congruent(Pow(2, e'), 26416923766592681793062447413593432731047876668342454504452664766378452552851, BLS_MODULUS)
  {
    hide Pow, Congruent;
    e' := e;
    e' := Step(e', 4540953854321046357570330178396557086965001538463058741063056075370289870182, 2, 32555743235663696586047357539682518030905574822318302474116629189645425723288);
    e' := Step(e', 32555743235663696586047357539682518030905574822318302474116629189645425723288, 1, 15721447364704194248382818362606870302381820982768430589376862071753914656530);
    e' := Step(e', 15721447364704194248382818362606870302381820982768430589376862071753914656530, 3, 34146807965923043626371419309159243640102508408806526219668322216180831096952);
    e' := Step(e', 34146807965923043626371419309159243640102508408806526219668322216180831096952, 1, 26416923766592681793062447413593432731047876668342454504452664766378452552851);
  }

  lemma Part6(e: nat) returns (e': nat)
    requires Congruent(Pow(2, e), 26416923766592681793062447413593432731047876668342454504452664766378452552851, BLS_MODULUS)
    ensures e' == 256 * e + 125
    ensures Congruent(Pow(2, e'), 3199836636640383656109133908724882893314062455678877077450934402417763366539, BLS_MODULUS)
  {
    hide Pow, Congruent;
    e' := e;
    e' := Step(e', 26416923766592681793062447413593432731047876668342454504452664766378452552851, 1, 31903130595980538823272838478069531480259219481304841840705365473126213445617);
    e' := Step(e', 31903130595980538823272838478069531480259219481304841840705365473126213445617, 3, 6170107750869563243552990460796909331041630247246368582807804253924617912748);
    e' := Step(e', 6170107750869563243552990460796909331041630247246368582807804253924617912748, 3, 27221365122578776690099908347540772642826861890868442690745564865886264169398);
    e' := Step(e', 27221365122578776690099908347540772642826861890868442690745564865886264169398, 1, 3199836636640383656109133908724882893314062455678877077450934402417763366539);
  }

  lemma Part7(e: nat) returns (e': nat)
    requires Congruent(Pow(2, e), 3199836636640383656109133908724882893314062455678877077450934402417763366539, BLS_MODULUS)
    ensures e' == 256 * e + 72
    ensures Congruent(Pow(2, e'), 51944911184872819484463203906388557895213971947696598473395037426864918031983, BLS_MODULUS)
  {
    hide Pow, Congruent;
    e' := e;
    e' := Step(e', 3199836636640383656109133908724882893314062455678877077450934402417763366539, 1, 18508443218658524052834383607486012222109803801316966687151378901912750035754);
    e' := Step(e', 18508443218658524052834383607486012222109803801316966687151378901912750035754, 0, 25597339405743145001612895886172657499901092137118868152167414266367886494031);
    e' := Step(e', 25597339405743145001612895886172657499901092137118868152167414266367886494031, 2, 14574446523143074508901634149351877599503927594399431607809092120573389289979);
    e' := Step(e', 14574446523143074508901634149351877599503927594399431607809092120573389289979, 0, 51944911184872819484463203906388557895213971947696598473395037426864918031983);
  }

  lemma Part8(e: nat) returns (e': nat)
    requires Congruent(Pow(2, e), 51944911184872819484463203906388557895213971947696598473395037426864918031983, BLS_MODULUS)
    ensures e' == 256 * e + 51
    ensures Congruent(Pow(2, e'), 24639700968238880969845093300219243603243923446131583620703101472396915530349, BLS_MODULUS)
  {
    hide Pow, Congruent;
    e' := e;
    e' := Step(e', 51944911184872819484463203906388557895213971947696598473395037426864918031983, 0, 36287280622700443068616127107848083074163885468946801728207592603200039212373);
    e' := Step(e', 36287280622700443068616127107848083074163885468946801728207592603200039212373, 3, 44515669116055663693617014037882408443176127652361581100034552360786026370607);
    e' := Step(e', 44515669116055663693617014037882408443176127652361581100034552360786026370607, 0, 30268310463427020151545349847340611821960912918802176113088643227259633325805);
    e' := Step(e', 30268310463427020151545349847340611821960912918802176113088643227259633325805, 3, 24639700968238880969845093300219243603243923446131583620703101472396915530349);
  }

  lemma Part9(e: nat) returns (e': nat)
    requires Congruent(Pow(2, e), 24639700968238880969845093300219243603243923446131583620703101472396915530349, BLS_MODULUS)
    ensures e' == 256 * e + 57
    ensures Congruent(Pow(2, e'), 26573838117631837054079174354842332215382919947585130268595812023272920383590, BLS_MODULUS)
  {
    hide Pow, Congruent;
    e' := e;
    e' := Step(e', 24639700968238880969845093300219243603243923446131583620703101472396915530349, 0, 13772384869378931788184664403327019402341059992492906492915459909950336328472);
    e' := Step(e', 13772384869378931788184664403327019402341059992492906492915459909950336328472, 3, 20611174737571315893937583673934624632420316023290665421487316913051360208805);
    e' := Step(e', 20611174737571315893937583673934624632420316023290665421487316913051360208805, 2, 16064041798273707762626077932804725363708847834774257210738191146110176480804);
    e' := Step(e', 16064041798273707762626077932804725363708847834774257210738191146110176480804, 1, 26573838117631837054079174354842332215382919947585130268595812023272920383590);
  }

  lemma Part10(e: nat) returns (e': nat)
    requires Congruent(Pow(2, e), 26573838117631837054079174354842332215382919947585130268595812023272920383590, BLS_MODULUS)
    ensures e' == 256 * e + 216
    ensures Congruent(Pow(2, e'), 43965104434587387387205870659756170294132942040018213750477494865527504937001, BLS_MODULUS)
  {
    hide Pow, Congruent;
    e' := e;
    e' := Step(e', 26573838117631837054079174354842332215382919947585130268595812023272920383590, 3, 36995359925408162739631899615603588004438912492570852607035232378891674494525);
    e' := Step(e', 36995359925408162739631899615603588004438912492570852607035232378891674494525, 1, 39235255946305443367757991415378113977003366043878049684424824062647907678744);
    e' := Step(e', 39235255946305443367757991415378113977003366043878049684424824062647907678744, 2, 18124612593845619978230814537082829445382303377520284734601702561463129823384);
    e' := Step(e', 18124612593845619978230814537082829445382303377520284734601702561463129823384, 0, 43965104434587387387205870659756170294132942040018213750477494865527504937001);
  }

  lemma Part11(e: nat) returns (e': nat)
    requires Congruent(Pow(2, e), 43965104434587387387205870659756170294132942040018213750477494865527504937001, BLS_MODULUS)
    ensures e' == 256 * e + 8
    ensures Congruent(Pow(2, e'), 51961461231301246239225508000720784891446100270561290813426290706020379280639, BLS_MODULUS)
  {
    hide Pow, Congruent;
    e' := e;
    e' := Step(e', 43965104434587387387205870659756170294132942040018213750477494865527504937001, 0, 12669091124601812966966646741510234404417479251862845198130182096704477103309);
    e' := Step(e', 12669091124601812966966646741510234404417479251862845198130182096704477103309, 0, 1474919165417901736241917511498674632544413424744707189370152499747040442097);
    e' := Step(e', 1474919165417901736241917511498674632544413424744707189370152499747040442097, 2, 3065938419641805587184503475805980251499996356924209851734545253029361136001);
    e' := Step(e', 3065938419641805587184503475805980251499996356924209851734545253029361136001, 0, 51961461231301246239225508000720784891446100270561290813426290706020379280639);
  }

  lemma Part12(e: nat) returns (e': nat)
    requires Congruent(Pow(2, e), 51961461231301246239225508000720784891446100270561290813426290706020379280639, BLS_MODULUS)
    ensures e' == 256 * e + 9
    ensures Congruent(Pow(2, e'), 40159285860475947205803172823347852267518308598971839231620966004010814351287, BLS_MODULUS)
  {
    hide Pow, Congruent;
    e' := e;
    e' := Step(e', 51961461231301246239225508000720784891446100270561290813426290706020379280639, 0, 6221014208493162153577534168115383668558788669499267574523372746237465114327);
    e' := Step(e', 6221014208493162153577534168115383668558788669499267574523372746237465114327, 0, 17477426482863692613061194750037993577992618543596979092673520599045538852723);
    e' := Step(e', 17477426482863692613061194750037993577992618543596979092673520599045538852723, 2, 30829709725655603567578870531599279659211850213699810498988203201637753993312);
    e' := Step(e', 30829709725655603567578870531599279659211850213699810498988203201637753993312, 1, 40159285860475947205803172823347852267518308598971839231620966004010814351287);
  }

  lemma Part13(e: nat) returns (e': nat)
    requires Congruent(Pow(2, e), 40159285860475947205803172823347852267518308598971839231620966004010814351287, BLS_MODULUS)
    ensures e' == 256 * e + 161
    ensures Congruent(Pow(2, e'), 23911449560778178091073557000908032185864678917550900436246630551435967436122, BLS_MODULUS)
  {
    hide Pow, Congruent;
    e' := e;
    e' := Step(e', 40159285860475947205803172823347852267518308598971839231620966004010814351287, 2, 19688349281873659384838165230025285076817096286204461064694132880196585702874);
    e' := Step(e', 19688349281873659384838165230025285076817096286204461064694132880196585702874, 2, 34633599380787703680840026423305340620882901813193110992918939962188519147390);
    e' := Step(e', 34633599380787703680840026423305340620882901813193110992918939962188519147390, 0, 5993076134967405291685774347239888291588385827610906614241135902380279618963);
    e' := Step(e', 5993076134967405291685774347239888291588385827610906614241135902380279618963, 1, 23911449560778178091073557000908032185864678917550900436246630551435967436122);
  }

  lemma Part14(e: nat) returns (e': nat)
    requires Congruent(Pow(2, e), 23911449560778178091073557000908032185864678917550900436246630551435967436122, BLS_MODULUS)
    ensures e' == 256 * e + 216
    ensures Congruent(Pow(2, e'), 39318140565904661690425839430779230174745652768805414178913193355871162612045, BLS_MODULUS)
  {
    hide Pow, Congruent;
    e' := e;
    e' := Step(e', 23911449560778178091073557000908032185864678917550900436246630551435967436122, 3, 13507629928414107428211062336243131045124548946806368456446919591826552703351);
    e' := Step(e', 13507629928414107428211062336243131045124548946806368456446919591826552703351, 1, 51334685901887756426933934850258526962108212292833046002610603432238655494920);
    e' := Step(e', 51334685901887756426933934850258526962108212292833046002610603432238655494920, 2, 23263786653922985274643906867490403387530583947427198268247736907910382437551);
    e' := Step(e', 23263786653922985274643906867490403387530583947427198268247736907910382437551, 0, 39318140565904661690425839430779230174745652768805414178913193355871162612045);
  }

  lemma Part15(e: nat) returns (e': nat)
    requires Congruent(Pow(2, e), 39318140565904661690425839430779230174745652768805414178913193355871162612045, BLS_MODULUS)
    ensures e' == 256 * e + 5
    ensures Congruent(Pow(2, e'), 15596519449843139334049917872090453726773480526260441710180882438810145296327, BLS_MODULUS)
  {
    hide Pow, Congruent;
    e' := e;
    e' := Step(e', 39318140565904661690425839430779230174745652768805414178913193355871162612045, 0, 18507907096891632611940931843997019753461517595973957792166399735159333400860);
    e' := Step(e', 18507907096891632611940931843997019753461517595973957792166399735159333400860, 0, 22969802888844041605757647461823739339511459150090184341440411102465134602446);
    e' := Step(e', 22969802888844041605757647461823739339511459150090184341440411102465134602446, 1, 38068537974250811148358481021091552139177304724178428457871866975444843625009);
    e' := Step(e', 38068537974250811148358481021091552139177304724178428457871866975444843625009, 1, 15596519449843139334049917872090453726773480526260441710180882438810145296327);
  }

  lemma Part16(e: nat) returns (e': nat)
    requires Congruent(Pow(2, e), 15596519449843139334049917872090453726773480526260441710180882438810145296327, BLS_MODULUS)
    ensures e' == 256 * e + 83
    ensures Congruent(Pow(2, e'), 6241400994604835922766380010288205389362560923823515941162390721387205297938, BLS_MODULUS)
  {
    hide Pow, Congruent;
    e' := e;
    e' := Step(e', 15596519449843139334049917872090453726773480526260441710180882438810145296327, 1, 35925767474716383613925808708245905032827627520259369938712028537209813811112);
    e' := Step(e', 35925767474716383613925808708245905032827627520259369938712028537209813811112, 1, 15957010868516358642408223375596219737803729156819148638233363007630523286597);
    e' := Step(e', 15957010868516358642408223375596219737803729156819148638233363007630523286597, 0, 13850501050763073840955296529362070622245972049403609536383926001485852717547);
    e' := Step(e', 13850501050763073840955296529362070622245972049403609536383926001485852717547, 3, 6241400994604835922766380010288205389362560923823515941162390721387205297938);
  }

  lemma Part17(e: nat) returns (e': nat)
    requires Congruent(Pow(2, e), 6241400994604835922766380010288205389362560923823515941162390721387205297938, BLS_MODULUS)
    ensures e' == 256 * e + 189
    ensures Congruent(Pow(2, e'), 50518983352456418358667242869846014886570759763613045431226939202356402059822, BLS_MODULUS)
  {
    hide Pow, Congruent;
    e' := e;
    e' := Step(e', 6241400994604835922766380010288205389362560923823515941162390721387205297938, 2, 13670779794686079672817011308563578881349147149158446802957502362323709551340);
    e' := Step(e', 13670779794686079672817011308563578881349147149158446802957502362323709551340, 3, 22412322135918253415664654074881322503919193747875306001383514544947021642422);
    e' := Step(e', 22412322135918253415664654074881322503919193747875306001383514544947021642422, 3, 11461018042526251861359465778338085706333939674668711256189738520642002997752);
    e' := Step(e', 11461018042526251861359465778338085706333939674668711256189738520642002997752, 1, 50518983352456418358667242869846014886570759763613045431226939202356402059822);
  }

  lemma Part18(e: nat) returns (e': nat)
    requires Congruent(Pow(2, e), 50518983352456418358667242869846014886570759763613045431226939202356402059822, BLS_MODULUS)
    ensures e' == 256 * e + 164
    ensures Congruent(Pow(2, e'), 5947893205592884381470996618921544014311985408801268739009206481282019408117, BLS_MODULUS)
  {
    hide Pow, Congruent;
    e' := e;
    e' := Step(e', 50518983352456418358667242869846014886570759763613045431226939202356402059822, 2, 36242091274260718484099071918684392267894859904949548808609060582280287775877);
    e' := Step(e', 36242091274260718484099071918684392267894859904949548808609060582280287775877, 2, 42304880706135210590331262590643197069333664966680678442492608477686281046818);
    e' := Step(e', 42304880706135210590331262590643197069333664966680678442492608477686281046818, 1, 38215759143766562955694130479526606429409569804399133264676966951557585288175);
    e' := Step(e', 38215759143766562955694130479526606429409569804399133264676966951557585288175, 0, 5947893205592884381470996618921544014311985408801268739009206481282019408117);
  }

  lemma Part19(e: nat) returns (e': nat)
    requires Congruent(Pow(2, e), 5947893205592884381470996618921544014311985408801268739009206481282019408117, BLS_MODULUS)
    ensures e' == 256 * e + 2
    ensures Congruent(Pow(2, e'), 48117942432149088744693779471623455633161612669472098922794346585376664129950, BLS_MODULUS)
  {
    hide Pow, Congruent;
    e' := e;
    e' := Step(e', 5947893205592884381470996618921544014311985408801268739009206481282019408117, 0, 43586904248285719152818604839119256490364827857418749507937843645367044524368);
    e' := Step(e', 43586904248285719152818604839119256490364827857418749507937843645367044524368, 0, 43904005567745299126380607218095379217914535795635930043437489408366540025236);
    e' := Step(e', 43904005567745299126380607218095379217914535795635930043437489408366540025236, 0, 4519318766978458671858528703594443288263939153672199655811653332602775945674);
    e' := Step(e', 4519318766978458671858528703594443288263939153672199655811653332602775945674, 2, 48117942432149088744693779471623455633161612669472098922794346585376664129950);
  }

  lemma Part20(e: nat) returns (e': nat)
    requires Congruent(Pow(2, e), 48117942432149088744693779471623455633161612669472098922794346585376664129950, BLS_MODULUS)
    ensures e' == 256 * e + 255
    ensures Congruent(Pow(2, e'), 47977053594990839822906247392235976508098119505559965858292490171838326725817, BLS_MODULUS)
  {
    hide Pow, Congruent;
    e' := e;
    e' := Step(e', 48117942432149088744693779471623455633161612669472098922794346585376664129950, 3, 4179456899164286145113882992383926098297956808232095932161640090974764887746);
    e' := Step(e', 4179456899164286145113882992383926098297956808232095932161640090974764887746, 3, 44609341636419014018221230436624374414450501745610348201759506527629060313004);
    e' := Step(e', 44609341636419014018221230436624374414450501745610348201759506527629060313004, 3, 21549838647753126246970983257663203750492731194520076624266862301747856411860);
    e' := Step(e', 21549838647753126246970983257663203750492731194520076624266862301747856411860, 3, 47977053594990839822906247392235976508098119505559965858292490171838326725817);
  }

  lemma Part21(e: nat) returns (e': nat)
    requires Congruent(Pow(2, e), 47977053594990839822906247392235976508098119505559965858292490171838326725817, BLS_MODULUS)
    ensures e' == 256 * e + 254
    ensures Congruent(Pow(2, e'), 2430905184330140235808287627385316437351330998275611218187612143588289950216, BLS_MODULUS)
  {
    hide Pow, Congruent;
    e' := e;
    e' := Step(e', 47977053594990839822906247392235976508098119505559965858292490171838326725817, 3, 2409774826625613130160489542834109814213106505932777704136470503610350717519);
    e' := Step(e', 2409774826625613130160489542834109814213106505932777704136470503610350717519, 3, 38579641963890799954406443589089975151971041648462553187765582488672113207411);
    e' := Step(e', 38579641963890799954406443589089975151971041648462553187765582488672113207411, 3, 19112587610720131977114380552990250623764555026011858250809890948393022070778);
    e' := Step(e', 19112587610720131977114380552990250623764555026011858250809890948393022070778, 2, 2430905184330140235808287627385316437351330998275611218187612143588289950216);
  }

  lemma Part22(e: nat) returns (e': nat)
    requires Congruent(Pow(2, e), 2430905184330140235808287627385316437351330998275611218187612143588289950216, BLS_MODULUS)
    ensures e' == 256 * e + 91
    ensures Congruent(Pow(2, e'), 29769229497868552989901339817062663120397215410084097290204818691662233998137, BLS_MODULUS)
  {
    hide Pow, Congruent;
    e' := e;
    e' := Step(e', 2430905184330140235808287627385316437351330998275611218187612143588289950216, 1, 19196622032996950955794689097681341145057154323844348890384826921214057089442);
    e' := Step(e', 19196622032996950955794689097681341145057154323844348890384826921214057089442, 1, 26312407492547513853994718824639999410266201095852252077878465268644183449167);
    e' := Step(e', 26312407492547513853994718824639999410266201095852252077878465268644183449167, 2, 29509702622615889245689482644677884562745353290404689763258178496191545790336);
    e' := Step(e', 29509702622615889245689482644677884562745353290404689763258178496191545790336, 3, 29769229497868552989901339817062663120397215410084097290204818691662233998137);
  }

  lemma Part23(e: nat) returns (e': nat)
    requires Congruent(Pow(2, e), 29769229497868552989901339817062663120397215410084097290204818691662233998137, BLS_MODULUS)
    ensures e' == 256 * e + 254
    ensures Congruent(Pow(2, e'), 31396934641140275835004143289808324827530622042116335489268280590652249872452, BLS_MODULUS)
  {
    hide Pow, Congruent;
    e' := e;
    e' := Step(e', 29769229497868552989901339817062663120397215410084097290204818691662233998137, 3, 22650308074687462963177396631125448641092332383506373476641456223526924059408);
    e' := Step(e', 22650308074687462963177396631125448641092332383506373476641456223526924059408, 3, 21327461376117055830228377263225184441268450380595544856027961406890449147374);
    e' := Step(e', 21327461376117055830228377263225184441268450380595544856027961406890449147374, 3, 650064818549607715420878361785314579778100704114839905671636984013793332098);
    e' := Step(e', 650064818549607715420878361785314579778100704114839905671636984013793332098, 2, 31396934641140275835004143289808324827530622042116335489268280590652249872452);
  }

  lemma Part24(e: nat) returns (e': nat)
    requires Congruent(Pow(2, e), 31396934641140275835004143289808324827530622042116335489268280590652249872452, BLS_MODULUS)
    ensures e' == 256 * e + 255
    ensures Congruent(Pow(2, e'), 40916661248599138563954280964374317817356230451304877910432539397045185631285, BLS_MODULUS)
  {
    hide Pow, Congruent;
    e' := e;
    e' := Step(e', 31396934641140275835004143289808324827530622042116335489268280590652249872452, 3, 8595581775677005634115787645973789592041276067117208984628035079953730348088);
    e' := Step(e', 8595581775677005634115787645973789592041276067117208984628035079953730348088, 3, 34514217565212645737945338049874095989204415863924236173587507947605041203584);
    e' := Step(e', 34514217565212645737945338049874095989204415863924236173587507947605041203584, 3, 27635197411019238012419225614958994009057976992041484084492449362095335893571);
    e' := Step(e', 27635197411019238012419225614958994009057976992041484084492449362095335893571, 3, 40916661248599138563954280964374317817356230451304877910432539397045185631285);
  }

  lemma Part25(e: nat) returns (e': nat)
    requires Congruent(Pow(2, e), 40916661248599138563954280964374317817356230451304877910432539397045185631285, BLS_MODULUS)
    ensures e' == 256 * e + 255
    ensures Congruent(Pow(2, e'), 3099748878467398534114663018520937827572415569670331853688585322820741832238, BLS_MODULUS)
  {
    hide Pow, Congruent;
    e' := e;
    e' := Step(e', 40916661248599138563954280964374317817356230451304877910432539397045185631285, 3, 40284971125456243320121030238379373781348083860749969349545814689635769179397);
    e' := Step(e', 40284971125456243320121030238379373781348083860749969349545814689635769179397, 3, 40248469125840346738524470554099127560419996957934677185071350197736276669336);
    e' := Step(e', 40248469125840346738524470554099127560419996957934677185071350197736276669336, 3, 40441795671621093256290944460613491884370740811094568316846537887879701574579);
    e' := Step(e', 40441795671621093256290944460613491884370740811094568316846537887879701574579, 3, 3099748878467398534114663018520937827572415569670331853688585322820741832238);
  }

  lemma Part26(e: nat) returns (e': nat)
    requires Congruent(Pow(2, e), 3099748878467398534114663018520937827572415569670331853688585322820741832238, BLS_MODULUS)
    ensures e' == 256 * e + 255
    ensures Congruent(Pow(2, e'), 26039250690188293202676683454954026216979248326268571200343244431268486487939, BLS_MODULUS)
  {
    hide Pow, Congruent;
    e' := e;
    e' := Step(e', 3099748878467398534114663018520937827572415569670331853688585322820741832238, 3, 51751886610634937237216286237803503001680437237936114497659868905284664468603);
    e' := Step(e', 51751886610634937237216286237803503001680437237936114497659868905284664468603, 3, 10755144548230911837948808461735665629754388089927825057749821442887388117009);
    e' := Step(e', 10755144548230911837948808461735665629754388089927825057749821442887388117009, 3, 31352089281600824561254650487723426269733520995061658254272071365058028007238);
    e' := Step(e', 31352089281600824561254650487723426269733520995061658254272071365058028007238, 3, 26039250690188293202676683454954026216979248326268571200343244431268486487939);
  }

  lemma Part27(e: nat) returns (e': nat)
    requires Congruent(Pow(2, e), 26039250690188293202676683454954026216979248326268571200343244431268486487939, BLS_MODULUS)
    ensures e' == 256 * e + 255
    ensures Congruent(Pow(2, e'), 5966851845240709597067974354038183931982399769588208969973695710074647081720, BLS_MODULUS)
  {
    hide Pow, Congruent;
    e' := e;
    e' := Step(e', 26039250690188293202676683454954026216979248326268571200343244431268486487939, 3, 39927635013939184608773279595809504905603312028167358419807863706835363745184);
    e' := Step(e', 39927635013939184608773279595809504905603312028167358419807863706835363745184, 3, 30709965510683266110426511661960640710650697517710838056511679997894784670336);
    e' := Step(e', 30709965510683266110426511661960640710650697517710838056511679997894784670336, 3, 25449515529047921516449578054385070551197728970154518453101075440058776301612);
    e' := Step(e', 25449515529047921516449578054385070551197728970154518453101075440058776301612, 3, 5966851845240709597067974354038183931982399769588208969973695710074647081720);
  }

  lemma Part28(e: nat) returns (e': nat)
    requires Congruent(Pow(2, e), 5966851845240709597067974354038183931982399769588208969973695710074647081720, BLS_MODULUS)
    ensures e' == 256 * e + 0
    ensures Congruent(Pow(2, e'), 36147838226182512021964769467460619343328767854802621669515314713252619811467, BLS_MODULUS)
  {
    hide Pow, Congruent;
    e' := e;
    e' := Step(e', 5966851845240709597067974354038183931982399769588208969973695710074647081720, 0, 21499822897225884555458991117186783427094624685422173331703995351504221509458);
    e' := Step(e', 21499822897225884555458991117186783427094624685422173331703995351504221509458, 0, 2651605408113018988196173663050160364499375041734566509836742081776490426285);
    e' := Step(e', 2651605408113018988196173663050160364499375041734566509836742081776490426285, 0, 17287738374747928186550623092981169999122598084806841206788712682902248588265);
    e' := Step(e', 17287738374747928186550623092981169999122598084806841206788712682902248588265, 0, 36147838226182512021964769467460619343328767854802621669515314713252619811467);
  }

  lemma Part29(e: nat) returns (e': nat)
    requires Congruent(Pow(2, e), 36147838226182512021964769467460619343328767854802621669515314713252619811467, BLS_MODULUS)
    ensures e' == 256 * e + 0
    ensures Congruent(Pow(2, e'), 47238185081164508690299488199111778682944142752239937218577782571328722285986, BLS_MODULUS)
  {
    hide Pow, Congruent;
    e' := e;
    e' := Step(e', 36147838226182512021964769467460619343328767854802621669515314713252619811467, 0, 38498785304197627398518967341608014005070212032705197787370392881145607467586);
    e' := Step(e', 38498785304197627398518967341608014005070212032705197787370392881145607467586, 0, 22604513624171945178100775797251065662004225854191982485476418705711182444269);
    e' := Step(e', 22604513624171945178100775797251065662004225854191982485476418705711182444269, 0, 44421377554986987754767901165209735493231869722510189718268404261644623277673);
    e' := Step(e', 44421377554986987754767901165209735493231869722510189718268404261644623277673, 0, 47238185081164508690299488199111778682944142752239937218577782571328722285986);
  }

  lemma Part30(e: nat) returns (e': nat)
    requires Congruent(Pow(2, e), 47238185081164508690299488199111778682944142752239937218577782571328722285986, BLS_MODULUS)
    ensures e' == 256 * e + 0
    ensures Congruent(Pow(2, e'), 38476778329304481878022718993882556548812578500290864179952442003245540347252, BLS_MODULUS)
  {
    hide Pow, Congruent;
    e' := e;
    e' := Step(e', 47238185081164508690299488199111778682944142752239937218577782571328722285986, 0, 20457311850591603228727204367304253518517508130361384399333064228813572620447);
    e' := Step(e', 20457311850591603228727204367304253518517508130361384399333064228813572620447, 0, 10051320303869671236835766816034743894074475112791264219771468810772258156390);
    e' := Step(e', 10051320303869671236835766816034743894074475112791264219771468810772258156390, 0, 49908153256824056093927737581345450642146874050834842146365362316686877438706);
    e' := Step(e', 49908153256824056093927737581345450642146874050834842146365362316686877438706, 0, 38476778329304481878022718993882556548812578500290864179952442003245540347252);
  }

  lemma Part31(e: nat) returns (e': nat)
    requires Congruent(Pow(2, e), 38476778329304481878022718993882556548812578500290864179952442003245540347252, BLS_MODULUS)
    ensures e' == 256 * e + 0
    ensures Congruent(Pow(2, e'), 1, BLS_MODULUS)
  {
    hide Pow, Congruent;
    e' := e;
    e' := Step(e', 38476778329304481878022718993882556548812578500290864179952442003245540347252, 0, 52435875175126190475982595682112313518914282969839895044333406231173219221505);
    e' := Step(e', 52435875175126190475982595682112313518914282969839895044333406231173219221505, 0, 1);
    e' := Step(e', 1, 0, 1);
    e' := Step(e', 1, 0, 1);
  }

  lemma Start() returns (e: nat)
    ensures e == 0 && Congruent(Pow(2, e), 1, BLS_MODULUS)
  {
    e := 0;
  }

  /** Two is invertible modulo the BLS modulus through the exponent that the code uses. */
  lemma TwoIsUnit()
    ensures Unit(2, BLS_MODULUS)
  {
    var e := Start();
    e := Part0(e);
    e := Part1(e);
    e := Part2(e);
    e := Part3(e);
    e := Part4(e);
    e := Part5(e);
    e := Part6(e);
    e := Part7(e);
    e := Part8(e);
    e := Part9(e);
    e := Part10(e);
    e := Part11(e);
    e := Part12(e);
    e := Part13(e);
    e := Part14(e);
    e := Part15(e);
    e := Part16(e);
    e := Part17(e);
    e := Part18(e);
    e := Part19(e);
    e := Part20(e);
    e := Part21(e);
    e := Part22(e);
    e := Part23(e);
    e := Part24(e);
    e := Part25(e);
    e := Part26(e);
    e := Part27(e);
    e := Part28(e);
    e := Part29(e);
    e := Part30(e);
    e := Part31(e);
    assert e == BLS_MODULUS - 1;
    ModUnique(1, 0, 1, BLS_MODULUS);
  }

  lemma GeneratorStep(e: nat, c: nat, next: nat) returns (e': nat)
    requires Congruent(Pow(GENERATOR, e), c, BLS_MODULUS)
    requires c * c * (c * c) % BLS_MODULUS == next
    ensures e' == 4 * e
    ensures Congruent(Pow(GENERATOR, e'), next, BLS_MODULUS)
  {
    e' := 4 * e;
    FourthPower(GENERATOR, e, c);
    CongruentMod(c * c * (c * c), BLS_MODULUS);
  }

  lemma GeneratorStart() returns (e: nat)
    ensures e == 1 && Congruent(Pow(GENERATOR, e), 39033254847818212395286706435128746857159659164139250548781411570340225835782, BLS_MODULUS)
  {
    e := 1;
    assert Pow(GENERATOR, 1) == GENERATOR * Pow(GENERATOR, 0);
  }

  /** The generator's 2048th power is minus one. */
  lemma GeneratorHalfTurn()
    ensures Congruent(Pow(GENERATOR, 2048) + 1, 0, BLS_MODULUS)
  {
    hide Pow, Congruent;
    var e := GeneratorStart();
    e := GeneratorStep(e, 39033254847818212395286706435128746857159659164139250548781411570340225835782, 22781213702924172180523978385542388841346373992886390990881355510284839737428);
    e := GeneratorStep(e, 22781213702924172180523978385542388841346373992886390990881355510284839737428, 36007022166693598376559747923784822035233416720563672082740011604939309541707);
    e := GeneratorStep(e, 36007022166693598376559747923784822035233416720563672082740011604939309541707, 31519469946562159605140591558550197856588417350474800936898404023113662197331);
    e := GeneratorStep(e, 31519469946562159605140591558550197856588417350474800936898404023113662197331, 14788168760825820622209131888203028446852016562542525606630160374691593895118);
    e := GeneratorStep(e, 14788168760825820622209131888203028446852016562542525606630160374691593895118, 3465144826073652318776269530687742778270252468765361963008);
    HalfTurn(e, 3465144826073652318776269530687742778270252468765361963008);
  }

  lemma HalfTurn(e: nat, c: nat)
    requires Congruent(Pow(GENERATOR, e), c, BLS_MODULUS)
    requires (c * c) % BLS_MODULUS == BLS_MODULUS - 1
    ensures Congruent(Pow(GENERATOR, 2 * e) + 1, 0, BLS_MODULUS)
  {
    var m, y := BLS_MODULUS, Pow(GENERATOR, e);
    PowAdd(GENERATOR, e, e);
    CongruentMul(y, c, y, c, m);
    CongruentMod(c * c, m);
    CongruentAdd(y * y, m - 1, 1, 1, m);
    ModMultiple(1, m);
    ModMultiple(0, m);
  }
}
