/**
 * The basic knowledge-base responder (`getLegalResponse`): the query is
 * lower-cased and tested against an ordered chain of substring rules; the
 * first rule that fires gives the answer, and no rule firing gives no answer.
 */
module LegalKnowledge {
  import opened Wrappers
  import opened Text
  import opened Collections

  /**
   * A rule fires when one of its alternatives holds; an alternative holds
   * when every one of its phrases occurs in the lower-cased query.
   */
  datatype Rule = Rule(alternatives: seq<seq<string>>, answer: string)

  predicate AllOccur(q: string, phrases: seq<string>) {
    forall k :: 0 <= k < |phrases| ==> Contains(q, phrases[k])
  }

  predicate Fires(q: string, rule: Rule) {
    exists a :: 0 <= a < |rule.alternatives| && AllOccur(q, rule.alternatives[a])
  }

  // The rules, one constant each, in the order the source tests them.
  // legalKnowledge.ts line 5
  const PREAMBLE_RULE: Rule := Rule([["preamble"]],
    "The Preamble declares India as a Sovereign, Socialist, Secular, Democratic Republic. It embodies the objectives of justice, liberty, equality, and fraternity.")
  // legalKnowledge.ts line 6
  const FUNDAMENTAL_RIGHT_RULE: Rule := Rule([["fundamental right"]],
    "Part III of the Constitution guarantees six categories of Fundamental Rights: Right to Equality (14-18), Right to Freedom (19-22), Right against Exploitation (23-24), Right to Freedom of Religion (25-28), Cultural and Educational Rights (29-30), and Right to Constitutional Remedies (32).")
  // legalKnowledge.ts line 7
  const ARTICLE_14_RULE: Rule := Rule([["article 14"]],
    "Article 14 guarantees equality before law and equal protection of laws. The State shall not deny to any person equality before the law or equal protection of the laws within India.")
  // legalKnowledge.ts line 8
  const ARTICLE_19_RULE: Rule := Rule([["article 19"]],
    "Article 19 guarantees six freedoms: speech and expression, assembly, association, movement, residence, and profession. These are subject to reasonable restrictions.")
  // legalKnowledge.ts line 9
  const ARTICLE_21_RULE: Rule := Rule([["article 21"]],
    "Article 21 protects life and personal liberty. No person shall be deprived of life or personal liberty except according to procedure established by law. The Supreme Court has expanded this to include right to privacy, dignity, education, clean environment, and livelihood.")
  // legalKnowledge.ts line 10
  const ARTICLE_32_RULE: Rule := Rule([["article 32"]],
    "Article 32 is the Right to Constitutional Remedies. Dr. Ambedkar called it the 'heart and soul' of the Constitution. It allows citizens to move the Supreme Court directly for enforcement of Fundamental Rights through writs.")
  // legalKnowledge.ts line 11
  const DPSP_RULE: Rule := Rule([["dpsp"], ["directive principle"]],
    "Directive Principles of State Policy (Part IV) are guidelines for the state to establish social and economic democracy. They are non-justiciable but fundamental in governance.")
  // legalKnowledge.ts line 12
  const FUNDAMENTAL_DUT_RULE: Rule := Rule([["fundamental dut"]],
    "Article 51A lists 11 Fundamental Duties added by the 42nd Amendment (1976). They are moral obligations for citizens to promote patriotism and uphold unity.")
  // legalKnowledge.ts line 15
  const BASIC_STRUCTURE_RULE: Rule := Rule([["basic structure"]],
    "The Basic Structure Doctrine was established in Kesavananda Bharati v. State of Kerala (1973). It holds that Parliament cannot amend the core foundational principles of the Constitution like supremacy of the Constitution, rule of law, independence of judiciary, secularism, federalism, and separation of powers.")
  // legalKnowledge.ts line 18
  const PARLIAMENT_RULE: Rule := Rule([["parliament"]],
    "The Indian Parliament consists of the President, Rajya Sabha (Council of States with 245 members), and Lok Sabha (House of the People with up to 552 members). Parliament has legislative, financial, and control powers.")
  // legalKnowledge.ts line 19
  const LOK_SABHA_RULE: Rule := Rule([["lok sabha"]],
    "Lok Sabha is the Lower House directly elected by people for 5 years. It has maximum 552 members. Money Bills can only be introduced here. It can pass a no-confidence motion against the government.")
  // legalKnowledge.ts line 20
  const RAJYA_SABHA_RULE: Rule := Rule([["rajya sabha"]],
    "Rajya Sabha is the Upper House with 245 members elected by state assemblies for 6-year terms. One-third retire every 2 years. It represents states and has limited powers over Money Bills.")
  // legalKnowledge.ts line 21
  const PRESIDENT_RULE: Rule := Rule([["president"]],
    "The President is the constitutional head of state elected by an Electoral College for 5 years. All executive actions are taken in the President's name. Real power lies with the Prime Minister and Council of Ministers.")
  // legalKnowledge.ts line 22
  const PRIME_MINISTER_RULE: Rule := Rule([["prime minister"]],
    "The Prime Minister is the head of government and leader of the majority party in Lok Sabha. The PM heads the Council of Ministers and is the real executive authority.")
  // legalKnowledge.ts line 23
  const MONEY_BILL_RULE: Rule := Rule([["money bill"]],
    "A Money Bill (Article 110) deals only with taxation, borrowing, or Consolidated Fund. It can only be introduced in Lok Sabha with President's recommendation. Rajya Sabha can only make recommendations within 14 days.")
  // legalKnowledge.ts line 26
  const SUPREME_COURT_RULE: Rule := Rule([["supreme court"]],
    "The Supreme Court is the apex court with 34 judges including the Chief Justice. It has original, appellate, and advisory jurisdiction. It exercises judicial review and can issue writs under Article 32.")
  // legalKnowledge.ts line 27
  const JUDICIAL_REVIEW_RULE: Rule := Rule([["judicial review"]],
    "Judicial Review is the power of courts to examine the constitutionality of legislative and executive actions. It's a part of the Basic Structure and ensures constitutional supremacy.")
  // legalKnowledge.ts line 28
  const WRIT_RULE: Rule := Rule([["writ"]],
    "Five writs under Articles 32 and 226: Habeas Corpus (produce detained person), Mandamus (command to perform duty), Prohibition (prevent lower court from exceeding jurisdiction), Certiorari (quash order of lower court), Quo Warranto (question authority of public office holder).")
  // legalKnowledge.ts line 29
  const PIL_RULE: Rule := Rule([["pil"], ["public interest"]],
    "Public Interest Litigation allows any citizen to file a petition for enforcement of public interest or rights of disadvantaged persons, even without direct personal injury. It's a tool of judicial activism.")
  // legalKnowledge.ts line 30
  const COLLEGIUM_RULE: Rule := Rule([["collegium"]],
    "The Collegium System is where senior Supreme Court judges led by the CJI recommend appointments and transfers of judges. It was upheld when the NJAC was struck down for violating judicial independence.")
  // legalKnowledge.ts line 33
  const EMERGENCY_RULE: Rule := Rule([["emergency"]],
    "Three types of emergencies: National Emergency (Article 352) on grounds of war/external aggression/armed rebellion; State Emergency/President's Rule (Article 356) when state government fails; Financial Emergency (Article 360) when financial stability is threatened.")
  // legalKnowledge.ts line 36
  const AMENDMENT_368_RULE: Rule := Rule([["amendment", "368"]],
    "Article 368 provides the procedure for constitutional amendment. Most provisions require special majority (2/3 of members present and voting + majority of total membership). Some provisions also require ratification by half the states.")
  // legalKnowledge.ts line 39
  const DOCTRINE_OF_ECLIPSE_RULE: Rule := Rule([["doctrine of eclipse"]],
    "Pre-constitutional laws inconsistent with Fundamental Rights are not void but eclipsed. They remain dormant and can revive if the conflicting Fundamental Right is amended.")
  // legalKnowledge.ts line 40
  const SEVERABILITY_RULE: Rule := Rule([["severability"]],
    "Doctrine of Severability: If an unconstitutional part can be separated from constitutional parts, only the bad part is struck down, rest remains valid.")
  // legalKnowledge.ts line 41
  const PITH_AND_SUBSTANCE_RULE: Rule := Rule([["pith and substance"]],
    "This doctrine examines the true character of a law. If it substantially falls within a legislature's competence, it's valid even if it incidentally touches another list.")
  // legalKnowledge.ts line 42
  const COLOURABLE_LEGISLATION_RULE: Rule := Rule([["colourable legislation"]],
    "What cannot be done directly cannot be done indirectly. If a legislature disguises a law to appear within its power when it lacks competence, courts will examine the substance and strike it down.")
  // legalKnowledge.ts line 43
  const REPUGNANCY_RULE: Rule := Rule([["repugnancy"]],
    "Doctrine of Repugnancy (Article 254): When Union and State laws on Concurrent List conflict, Union law prevails. However, if State law has President's assent, it can override Union law in that state.")
  // legalKnowledge.ts line 44
  const TERRITORIAL_NEXUS_RULE: Rule := Rule([["territorial nexus"]],
    "A state can make laws with extra-territorial operation if there's sufficient territorial nexus between the state and the subject matter.")
  // legalKnowledge.ts line 45
  const OCCUPIED_FIELD_RULE: Rule := Rule([["occupied field"]],
    "If Parliament legislates on a Concurrent List subject, it occupies the field. State law on same subject cannot operate simultaneously unless it has President's assent.")
  // legalKnowledge.ts line 48
  const KESAVANANDA_BHARATI_RULE: Rule := Rule([["kesavananda bharati"]],
    "Kesavananda Bharati v. State of Kerala (1973) established the Basic Structure Doctrine, holding that Parliament cannot amend the core foundational principles of the Constitution.")
  // legalKnowledge.ts line 49
  const MANEKA_GANDHI_RULE: Rule := Rule([["maneka gandhi"]],
    "Maneka Gandhi v. Union of India (1978) established the 'Golden Triangle' of Articles 14, 19, and 21. Any law depriving liberty must be fair, just, reasonable, and non-arbitrary.")
  // legalKnowledge.ts line 50
  const MINERVA_MILLS_RULE: Rule := Rule([["minerva mills"]],
    "Minerva Mills v. Union of India (1980) struck down parts of 42nd Amendment, holding that balance between Fundamental Rights and DPSP is part of Basic Structure.")
  // legalKnowledge.ts line 51
  const BOMMAI_RULE: Rule := Rule([["bommai"]],
    "S.R. Bommai v. Union of India (1994) established that federalism and secularism are part of Basic Structure. Article 356 power is not absolute and is judicially reviewable.")
  // legalKnowledge.ts line 52
  const PRIVACY_RULE: Rule := Rule([["privacy"]],
    "Justice K.S. Puttaswamy v. Union of India (2017) declared Right to Privacy as a fundamental right under Article 21, protecting individual autonomy and dignity.")
  // legalKnowledge.ts line 53
  const TRIPLE_TALAQ_RULE: Rule := Rule([["triple talaq"]],
    "Shayara Bano v. Union of India (2017) declared instant triple talaq unconstitutional as arbitrary and violating Article 14. Led to Muslim Women (Protection of Rights on Marriage) Act, 2019.")
  // legalKnowledge.ts line 54
  const SABARIMALA_RULE: Rule := Rule([["sabarimala"]],
    "Indian Young Lawyers Association v. State of Kerala (2018) held that excluding women aged 10-50 from Sabarimala temple violated Articles 14, 21, and 25. The practice was not an essential religious practice.")
  // legalKnowledge.ts line 55
  const NAVTEJ_RULE: Rule := Rule([["navtej"], ["377"], ["homosexual"]],
    "Navtej Singh Johar v. Union of India (2018) decriminalized consensual homosexual acts, holding Section 377 IPC violated Articles 14, 21 (privacy, dignity, autonomy) and was irrational and arbitrary.")
  // legalKnowledge.ts line 56
  const AADHAAR_RULE: Rule := Rule([["aadhaar"]],
    "Justice K.S. Puttaswamy v. Union of India (Aadhaar case) upheld Aadhaar for welfare schemes and tax compliance using proportionality test, but struck down mandatory linking with bank accounts and mobile phones.")
  // legalKnowledge.ts line 57
  const NJAC_RULE: Rule := Rule([["njac"]],
    "Supreme Court Advocates-on-Record Association v. Union of India (2015) struck down NJAC Act for violating judicial independence (Basic Structure) by giving political executive decisive role in judicial appointments.")
  // legalKnowledge.ts line 60
  const RIGHT_TO_EDUCATION_RULE: Rule := Rule([["right to education"]],
    "Article 21A (added by 86th Amendment, 2002) makes free and compulsory education for children aged 6-14 a fundamental right. Implemented through RTE Act, 2009.")
  // legalKnowledge.ts line 61
  const RIGHT_TO_INFORMATION_RULE: Rule := Rule([["right to information"]],
    "Right to Information is implicit in Article 19(1)(a) and Article 21. Codified by RTI Act, 2005, it allows citizens to access government information.")
  // legalKnowledge.ts line 62
  const RESERVATION_RULE: Rule := Rule([["reservation"]],
    "Articles 15(4), 15(5), and 16(4) allow reservations for SCs, STs, OBCs, and EWS in education and employment to ensure social justice and adequate representation. 103rd Amendment (2019) added 10% EWS quota.")
  // legalKnowledge.ts line 63
  const PREVENTIVE_DETENTION_RULE: Rule := Rule([["preventive detention"]],
    "Article 22 allows preventive detention to prevent potential crimes. Safeguards include: grounds must be communicated, right to representation, and maximum detention period as prescribed by law.")
  // legalKnowledge.ts line 66
  const FEDERAL_RULE: Rule := Rule([["federal"], ["union list"], ["state list"], ["concurrent"]],
    "India has a quasi-federal structure. Seventh Schedule divides powers: Union List (97 subjects like defense, foreign affairs), State List (66 subjects like police, agriculture), Concurrent List (47 subjects like criminal law, education). Residuary powers with Union.")
  // legalKnowledge.ts line 67
  const GOVERNOR_RULE: Rule := Rule([["governor"]],
    "Governor is the constitutional head of a state appointed by President for 5 years. After S.R. Bommai, Governor cannot dismiss a government arbitrarily; majority must be tested on assembly floor.")
  // legalKnowledge.ts line 70
  const SECULARISM_RULE: Rule := Rule([["secularism"]],
    "Secularism means the state has no official religion and treats all religions equally. Added to Preamble by 42nd Amendment. It's part of the Basic Structure (S.R. Bommai case).")
  // legalKnowledge.ts line 71
  const SOCIALISM_RULE: Rule := Rule([["socialism"]],
    "Socialism in Indian context means social and economic equality, not state ownership of means of production. Added to Preamble by 42nd Amendment, it aims for a welfare state.")
  // legalKnowledge.ts line 72
  const AMBEDKAR_RULE: Rule := Rule([["ambedkar"]],
    "Dr. B.R. Ambedkar is the Father of the Indian Constitution. As Chairman of the Drafting Committee, he played the pivotal role in drafting the Constitution.")
  // legalKnowledge.ts line 73
  const CONSTITUENT_ASSEMBLY_RULE: Rule := Rule([["constituent assembly"]],
    "The Constituent Assembly was formed in 1946 to draft the Constitution. It adopted the Constitution on November 26, 1949, which came into effect on January 26, 1950.")

  const RULE_COUNT: nat := 49

  /** The rule tested in position `i` of the chain. */
  function RuleAt(i: nat): Rule
    requires i < RULE_COUNT
  {
    match i
    case 0 => PREAMBLE_RULE
    case 1 => FUNDAMENTAL_RIGHT_RULE
    case 2 => ARTICLE_14_RULE
    case 3 => ARTICLE_19_RULE
    case 4 => ARTICLE_21_RULE
    case 5 => ARTICLE_32_RULE
    case 6 => DPSP_RULE
    case 7 => FUNDAMENTAL_DUT_RULE
    case 8 => BASIC_STRUCTURE_RULE
    case 9 => PARLIAMENT_RULE
    case 10 => LOK_SABHA_RULE
    case 11 => RAJYA_SABHA_RULE
    case 12 => PRESIDENT_RULE
    case 13 => PRIME_MINISTER_RULE
    case 14 => MONEY_BILL_RULE
    case 15 => SUPREME_COURT_RULE
    case 16 => JUDICIAL_REVIEW_RULE
    case 17 => WRIT_RULE
    case 18 => PIL_RULE
    case 19 => COLLEGIUM_RULE
    case 20 => EMERGENCY_RULE
    case 21 => AMENDMENT_368_RULE
    case 22 => DOCTRINE_OF_ECLIPSE_RULE
    case 23 => SEVERABILITY_RULE
    case 24 => PITH_AND_SUBSTANCE_RULE
    case 25 => COLOURABLE_LEGISLATION_RULE
    case 26 => REPUGNANCY_RULE
    case 27 => TERRITORIAL_NEXUS_RULE
    case 28 => OCCUPIED_FIELD_RULE
    case 29 => KESAVANANDA_BHARATI_RULE
    case 30 => MANEKA_GANDHI_RULE
    case 31 => MINERVA_MILLS_RULE
    case 32 => BOMMAI_RULE
    case 33 => PRIVACY_RULE
    case 34 => TRIPLE_TALAQ_RULE
    case 35 => SABARIMALA_RULE
    case 36 => NAVTEJ_RULE
    case 37 => AADHAAR_RULE
    case 38 => NJAC_RULE
    case 39 => RIGHT_TO_EDUCATION_RULE
    case 40 => RIGHT_TO_INFORMATION_RULE
    case 41 => RESERVATION_RULE
    case 42 => PREVENTIVE_DETENTION_RULE
    case 43 => FEDERAL_RULE
    case 44 => GOVERNOR_RULE
    case 45 => SECULARISM_RULE
    case 46 => SOCIALISM_RULE
    case 47 => AMBEDKAR_RULE
    case _ => CONSTITUENT_ASSEMBLY_RULE
  }

  /** The rules from position `i` on. */
  function RulesFrom(i: nat): (r: seq<Rule>)
    requires i <= RULE_COUNT
    ensures |r| == RULE_COUNT - i
    ensures forall k :: 0 <= k < |r| ==> r[k] == RuleAt(i + k)
    decreases RULE_COUNT - i
  {
    if i == RULE_COUNT then [] else [RuleAt(i)] + RulesFrom(i + 1)
  }

  /** The rule chain, in the order the source tests it. */
  const RULES: seq<Rule> := RulesFrom(0)

  // Positions in RULES of the rules the lemmas below speak about.
  const PREAMBLE: nat := 0
  const ARTICLE_21: nat := 4
  const DPSP: nat := 6
  const PARLIAMENT: nat := 9
  const LOK_SABHA: nat := 10
  const WRIT: nat := 17
  const PIL: nat := 18
  const ARTICLE_368: nat := 21
  const NAVTEJ: nat := 36
  const FEDERAL: nat := 43

  /** The rule that answers `query`: the first that fires on its lower-cased form. */
  function MatchedRule(query: string): (r: Option<nat>)
    ensures r.Some? ==> r.value < |RULES| && Fires(ToLower(query), RULES[r.value])
    ensures r.Some? ==> forall j :: 0 <= j < r.value ==> !Fires(ToLower(query), RULES[j])
    ensures r.None? <==> forall j :: 0 <= j < |RULES| ==> !Fires(ToLower(query), RULES[j])
  {
    FirstIndex(RULES, rule => Fires(ToLower(query), rule))
  }

  /** `getLegalResponse`: the answer of the first rule that fires, or none. */
  function GetLegalResponse(query: string): (r: Option<string>)
    ensures r.None? <==> forall j :: 0 <= j < |RULES| ==> !Fires(ToLower(query), RULES[j])
    ensures r.Some? ==> exists i :: 0 <= i < |RULES| && r.value == RULES[i].answer
                                    && Fires(ToLower(query), RULES[i])
                                    && forall j :: 0 <= j < i ==> !Fires(ToLower(query), RULES[j])
  {
    var m := MatchedRule(query);
    if m.None? then None
    else
      var i := m.value;
      assert i < |RULES| && Fires(ToLower(query), RULES[i]);
      Some(RULES[i].answer)
  }

  /** A phrase alternative that occurs makes its rule fire. */
  lemma FiresOn(q: string, rule: Rule, a: nat)
    requires a < |rule.alternatives| && AllOccur(q, rule.alternatives[a])
    ensures Fires(q, rule)
  {
  }

  /** The answer depends only on the lower-cased query. */
  lemma GetLegalResponseCaseInsensitive(query: string)
    ensures GetLegalResponse(ToLower(query)) == GetLegalResponse(query)
  {
    ToLowerIdempotent(query);
  }

  /** Any query mentioning 'preamble' gets the Preamble answer, whatever else it says. */
  lemma PreambleWins(query: string)
    requires Contains(ToLower(query), "preamble")
    ensures MatchedRule(query) == Some(PREAMBLE)
    ensures GetLegalResponse(query) == Some(PREAMBLE_RULE.answer)
  {
    assert RULES[PREAMBLE] == PREAMBLE_RULE;
    FiresOn(ToLower(query), PREAMBLE_RULE, 0);
  }

  /**
   * A query mentioning 'parliament' never reaches the Lok Sabha rule, even if it
   * also mentions 'lok sabha'; when no earlier rule fires, it gets the Parliament answer.
   */
  lemma ParliamentShadowsLokSabha(query: string)
    requires Contains(ToLower(query), "parliament")
    ensures MatchedRule(query).Some? && MatchedRule(query).value <= PARLIAMENT
    ensures MatchedRule(query) != Some(LOK_SABHA)
    ensures (forall j :: 0 <= j < PARLIAMENT ==> !Fires(ToLower(query), RULES[j])) ==>
      GetLegalResponse(query) == Some(PARLIAMENT_RULE.answer)
  {
    var q := ToLower(query);
    assert RULES[PARLIAMENT] == PARLIAMENT_RULE;
    assert AllOccur(q, PARLIAMENT_RULE.alternatives[0]);
    FiresOn(q, PARLIAMENT_RULE, 0);
    assert Fires(q, RULES[PARLIAMENT]);
    var m := MatchedRule(query);
    assert m.Some? && m.value <= PARLIAMENT;
  }

  /** The Article 368 rule is conjunctive: it fires exactly when both 'amendment' and '368' occur. */
  lemma Article368NeedsBoth(query: string)
    ensures Fires(ToLower(query), RULES[ARTICLE_368])
        <==> Contains(ToLower(query), "amendment") && Contains(ToLower(query), "368")
    ensures !Contains(ToLower(query), "368") ==> MatchedRule(query) != Some(ARTICLE_368)
  {
    var q := ToLower(query);
    assert RULES[ARTICLE_368] == AMENDMENT_368_RULE;
    if Contains(q, "amendment") && Contains(q, "368") {
      FiresOn(q, AMENDMENT_368_RULE, 0);
    }
    if Fires(q, AMENDMENT_368_RULE) {
      var a :| 0 <= a < |AMENDMENT_368_RULE.alternatives| && AllOccur(q, AMENDMENT_368_RULE.alternatives[a]);
      assert a == 0;
      assert Contains(q, AMENDMENT_368_RULE.alternatives[0][0]);
      assert Contains(q, AMENDMENT_368_RULE.alternatives[0][1]);
    }
  }

  /** A rule whose alternatives are single phrases fires exactly when one of those phrases occurs. */
  lemma OnePhraseEach(q: string, rule: Rule)
    requires forall a :: 0 <= a < |rule.alternatives| ==> |rule.alternatives[a]| == 1
    ensures Fires(q, rule) <==> exists a :: 0 <= a < |rule.alternatives| && Contains(q, rule.alternatives[a][0])
  {
    if Fires(q, rule) {
      var a :| 0 <= a < |rule.alternatives| && AllOccur(q, rule.alternatives[a]);
      assert Contains(q, rule.alternatives[a][0]);
    }
    if exists a :: 0 <= a < |rule.alternatives| && Contains(q, rule.alternatives[a][0]) {
      var a :| 0 <= a < |rule.alternatives| && Contains(q, rule.alternatives[a][0]);
      FiresOn(q, rule, a);
    }
  }

  /** The DPSP rule is disjunctive: either 'dpsp' or 'directive principle' is enough. */
  lemma DpspEitherPhrase(query: string)
    ensures Fires(ToLower(query), RULES[DPSP])
        <==> Contains(ToLower(query), "dpsp") || Contains(ToLower(query), "directive principle")
  {
    assert RULES[DPSP] == DPSP_RULE;
    DpspFires(ToLower(query));
  }

  /** The rule itself, on any lower-cased text. */
  lemma DpspFires(q: string)
    ensures Fires(q, DPSP_RULE)
        <==> Contains(q, "dpsp") || Contains(q, "directive principle")
  {
    var alts := DPSP_RULE.alternatives;
    assert |alts| == 2 && alts[0][0] == "dpsp" && alts[1][0] == "directive principle";
    OnePhraseEach(q, DPSP_RULE);
    if exists a :: 0 <= a < |alts| && Contains(q, alts[a][0]) {
      var a :| 0 <= a < |alts| && Contains(q, alts[a][0]);
      assert a == 0 || a == 1;
    }
    if Contains(q, "dpsp") { assert Contains(q, alts[0][0]); }
    if Contains(q, "directive principle") { assert Contains(q, alts[1][0]); }
  }

  /** The PIL rule is disjunctive: either 'pil' or 'public interest' is enough. */
  lemma PilEitherPhrase(query: string)
    ensures Fires(ToLower(query), RULES[PIL])
        <==> Contains(ToLower(query), "pil") || Contains(ToLower(query), "public interest")
  {
    assert RULES[PIL] == PIL_RULE;
    PilFires(ToLower(query));
  }

  /** The rule itself, on any lower-cased text. */
  lemma PilFires(q: string)
    ensures Fires(q, PIL_RULE)
        <==> Contains(q, "pil") || Contains(q, "public interest")
  {
    var alts := PIL_RULE.alternatives;
    assert |alts| == 2 && alts[0][0] == "pil" && alts[1][0] == "public interest";
    OnePhraseEach(q, PIL_RULE);
    if exists a :: 0 <= a < |alts| && Contains(q, alts[a][0]) {
      var a :| 0 <= a < |alts| && Contains(q, alts[a][0]);
      assert a == 0 || a == 1;
    }
    if Contains(q, "pil") { assert Contains(q, alts[0][0]); }
    if Contains(q, "public interest") { assert Contains(q, alts[1][0]); }
  }

  /** The Navtej Johar rule fires on 'navtej', '377' or 'homosexual'. */
  lemma NavtejAnyPhrase(query: string)
    ensures Fires(ToLower(query), RULES[NAVTEJ])
        <==> Contains(ToLower(query), "navtej") || Contains(ToLower(query), "377")
             || Contains(ToLower(query), "homosexual")
  {
    assert RULES[NAVTEJ] == NAVTEJ_RULE;
    NavtejFires(ToLower(query));
  }

  /** The rule itself, on any lower-cased text. */
  lemma NavtejFires(q: string)
    ensures Fires(q, NAVTEJ_RULE)
        <==> Contains(q, "navtej") || Contains(q, "377")
             || Contains(q, "homosexual")
  {
    var alts := NAVTEJ_RULE.alternatives;
    assert |alts| == 3 && alts[0][0] == "navtej" && alts[1][0] == "377" && alts[2][0] == "homosexual";
    OnePhraseEach(q, NAVTEJ_RULE);
    if exists a :: 0 <= a < |alts| && Contains(q, alts[a][0]) {
      var a :| 0 <= a < |alts| && Contains(q, alts[a][0]);
      assert a == 0 || a == 1 || a == 2;
    }
    if Contains(q, "navtej") { assert Contains(q, alts[0][0]); }
    if Contains(q, "377") { assert Contains(q, alts[1][0]); }
    if Contains(q, "homosexual") { assert Contains(q, alts[2][0]); }
  }

  /** The federalism rule fires on 'federal', 'union list', 'state list' or 'concurrent'. */
  lemma FederalAnyPhrase(query: string)
    ensures Fires(ToLower(query), RULES[FEDERAL])
        <==> Contains(ToLower(query), "federal") || Contains(ToLower(query), "union list")
             || Contains(ToLower(query), "state list") || Contains(ToLower(query), "concurrent")
  {
    assert RULES[FEDERAL] == FEDERAL_RULE;
    FederalFires(ToLower(query));
  }

  /** The rule itself, on any lower-cased text. */
  lemma FederalFires(q: string)
    ensures Fires(q, FEDERAL_RULE)
        <==> Contains(q, "federal") || Contains(q, "union list")
             || Contains(q, "state list") || Contains(q, "concurrent")
  {
    var alts := FEDERAL_RULE.alternatives;
    assert |alts| == 4 && alts[0][0] == "federal" && alts[1][0] == "union list"
        && alts[2][0] == "state list" && alts[3][0] == "concurrent";
    OnePhraseEach(q, FEDERAL_RULE);
    if exists a :: 0 <= a < |alts| && Contains(q, alts[a][0]) {
      var a :| 0 <= a < |alts| && Contains(q, alts[a][0]);
      assert a == 0 || a == 1 || a == 2 || a == 3;
    }
    if Contains(q, "federal") { assert Contains(q, alts[0][0]); }
    if Contains(q, "union list") { assert Contains(q, alts[1][0]); }
    if Contains(q, "state list") { assert Contains(q, alts[2][0]); }
    if Contains(q, "concurrent") { assert Contains(q, alts[3][0]); }
  }

  /** A rule with one single-phrase alternative fires exactly when that phrase occurs. */
  lemma SinglePhraseFires(q: string, rule: Rule)
    requires |rule.alternatives| == 1 && |rule.alternatives[0]| == 1
    ensures Fires(q, rule) <==> Contains(q, rule.alternatives[0][0])
  {
    if Contains(q, rule.alternatives[0][0]) {
      FiresOn(q, rule, 0);
    }
  }

  /**
   * Matching is raw substring containment, not word matching: the Article 21
   * rule fires on anything that starts with 'article 21' ('article 210',
   * 'article 21a'), the writ rule on anything starting with 'writ' ('written').
   */
  lemma RawSubstringMatching(rest: string)
    ensures Fires("article 21" + rest, RULES[ARTICLE_21])
    ensures Fires("writ" + rest, RULES[WRIT])
  {
    var a, w := "article 21" + rest, "writ" + rest;
    assert RULES[ARTICLE_21] == ARTICLE_21_RULE && RULES[WRIT] == WRIT_RULE;
    assert a[0..10] == "article 21";
    assert w[0..4] == "writ";
    ContainsAt(a, "article 21", 0);
    ContainsAt(w, "writ", 0);
    SinglePhraseFires(a, ARTICLE_21_RULE);
    SinglePhraseFires(w, WRIT_RULE);
  }

  /** The first five rules of the chain, in order. */
  lemma FirstFivePositions()
    ensures RULES[0] == PREAMBLE_RULE && RULES[1] == FUNDAMENTAL_RIGHT_RULE
    ensures RULES[2] == ARTICLE_14_RULE && RULES[3] == ARTICLE_19_RULE
    ensures RULES[4] == ARTICLE_21_RULE
  {
  }

  /**
   * A query that mentions 'article 21' and none of the phrases of the four
   * rules before it gets the Article 21 answer.
   */
  lemma Article21Reached(query: string)
    requires Contains(ToLower(query), "article 21")
    requires !Contains(ToLower(query), "preamble") && !Contains(ToLower(query), "fundamental right")
    requires !Contains(ToLower(query), "article 14") && !Contains(ToLower(query), "article 19")
    ensures MatchedRule(query) == Some(ARTICLE_21)
    ensures GetLegalResponse(query) == Some(ARTICLE_21_RULE.answer)
  {
    var q := ToLower(query);
    FirstFivePositions();
    SinglePhraseFires(q, PREAMBLE_RULE);
    SinglePhraseFires(q, FUNDAMENTAL_RIGHT_RULE);
    SinglePhraseFires(q, ARTICLE_14_RULE);
    SinglePhraseFires(q, ARTICLE_19_RULE);
    SinglePhraseFires(q, ARTICLE_21_RULE);
    assert forall j :: 0 <= j < 4 ==> !Fires(q, RULES[j]);
  }
}
