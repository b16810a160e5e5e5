/**
 * The TechieHelp keyword router: `techiehelp_responses` in gen.py.
 *
 * The query is lower-cased once, six substring guards are tried in a fixed
 * order, and the first that matches selects a canned answer. When none
 * matches, the original query goes to the hosted generative model, which is
 * a function parameter here.
 */
module Router {
  import opened Text

  /** The six topics with a canned answer, in the order their guards are tried. */
  datatype Topic = About | Services | Internships | Mission | Founder | Contact

  /** What the guards decide: a canned topic, or forwarding the query as typed. */
  datatype Decision = Canned(topic: Topic) | Forward(query: string)

  datatype Option<T> = None | Some(value: T)

  /** The request sent to the generative model: a system preamble and the user's text. */
  datatype Prompt = Prompt(preamble: string, user: string)

  /** An answer: the canned text of a topic, or text the model generated. */
  datatype Answer = Fixed(topic: Topic) | Generated(text: string)

  /** The router's answer, with the remote requests made while producing it. */
  datatype Reply = Reply(answer: Answer, calls: seq<Prompt>)

  /** The fixed system preamble sent with every forwarded query. */
  const PREAMBLE: string := "you are a friendly model"

  /** The guard order of the if/elif chain. */
  const ORDER: seq<Topic> := [About, Services, Internships, Mission, Founder, Contact]

  /** The keyword each guard looks for in the lower-cased query. */
  function Keyword(t: Topic): (r: string)
    ensures r != []
    ensures forall i :: 0 <= i < |r| ==> !IsUpper(r[i])
  {
    match t
    case About => "techiehelp"
    case Services => "services"
    case Internships => "internships"
    case Mission => "mission"
    case Founder => "founder"
    case Contact => "contact"
  }

  /**
   * Position of a topic's guard in the chain. `ORDER` is the same order as a
   * table; `Rank` lets a quantifier over topics say "an earlier guard"
   * directly, and `RankIsPosition` ties the two together.
   */
  function Rank(t: Topic): nat {
    match t
    case About => 0
    case Services => 1
    case Internships => 2
    case Mission => 3
    case Founder => 4
    case Contact => 5
  }

  /** The if/elif chain as written, including the "about techiehelp" disjunct. */
  function Route(userQuery: string): (r: Decision)
    ensures r.Canned? ==> Contains(Lower(userQuery), Keyword(r.topic))
    ensures r.Forward? ==> r.query == userQuery
  {
    var query := Lower(userQuery);
    AboutDisjunctRedundant(query);
    if Contains(query, "about techiehelp") || Contains(query, "techiehelp") then Canned(About)
    else if Contains(query, "services") then Canned(Services)
    else if Contains(query, "internships") then Canned(Internships)
    else if Contains(query, "mission") then Canned(Mission)
    else if Contains(query, "founder") then Canned(Founder)
    else if Contains(query, "contact") then Canned(Contact)
    else Forward(userQuery)
  }

  /**
   * The same router as a table scan: the index of the first topic of `table`
   * whose keyword occurs in `query`, if any.
   */
  function FirstMatch(query: string, table: seq<Topic>): (r: Option<nat>)
    ensures r.Some? ==> r.value < |table| && Contains(query, Keyword(table[r.value]))
    ensures r.Some? ==> forall j :: 0 <= j < r.value ==> !Contains(query, Keyword(table[j]))
    ensures r.None? <==> forall j :: 0 <= j < |table| ==> !Contains(query, Keyword(table[j]))
  {
    if table == [] then None
    else if Contains(query, Keyword(table[0])) then Some(0)
    else
      var rest := FirstMatch(query, table[1..]);
      assert forall j :: 1 <= j < |table| ==> table[j] == table[1..][j - 1];
      match rest
      case None => None
      case Some(k) => Some(k + 1)
  }

  /** The canned answer for each topic. */
  function CannedText(t: Topic): string {
    match t
    case About =>
      "TechieHelp is a dynamic platform designed to empower students and professionals by providing a range of services and opportunities. Here's what we offer:\n\n"
      + "- **Web Development**: We create custom websites that are responsive, user-friendly, and tailored to your business needs. Learn more about our [Web Development Services](https://techiehelp.com/web-development).\n"
      + "- **App Development**: Our team develops high-quality mobile applications for both iOS and Android platforms. Explore our [App Development Services](https://techiehelp.com/app-development).\n"
      + "- **SEO Services**: Improve your website's visibility and ranking on search engines with our expert SEO services. Discover more about our [SEO Services](https://techiehelp.com/seo).\n"
      + "- **UI/UX Design**: We offer design services to enhance user experience and create visually appealing interfaces. Check out our [UI/UX Design Services](https://techiehelp.com/ui-ux-design).\n"
      + "- **Admissions Support**: Get assistance with admissions for various educational programs and courses. Find out more about our [Admissions Support](https://techiehelp.com/admissions).\n\n"
      + "TechieHelp was founded by Amit Kumar, a passionate front-end developer and AI enthusiast. Amit Kumar is committed to bridging the gap between academic learning and real-world experience. Connect with Amit on [LinkedIn](https://linkedin.com/in/amit-kumar).\n\n"
      + "For more information, visit our [website](https://techiehelp.com).\n\n"
      + "Connect with us on social media:\n"
      + "- [Twitter](https://twitter.com/techiehelp)\n"
      + "- [LinkedIn](https://linkedin.com/company/techiehelp)\n"
      + "- [Facebook](https://facebook.com/techiehelp)"
    case Services =>
      "TechieHelp offers the following services:\n\n"
      + "- **Web Development**: Custom websites designed to meet your needs.\n"
      + "- **App Development**: Mobile apps for iOS and Android.\n"
      + "- **SEO Services**: Optimize your site for better search engine rankings.\n"
      + "- **UI/UX Design**: Enhance user experience with our design services.\n"
      + "- **Admissions Support**: Assistance with educational program admissions.\n\n"
      + "For more details, visit our [Services Page](https://techiehelp.com/services)."
    case Internships =>
      "TechieHelp provides internships across various domains. Our internships include:\n\n"
      + "- **AI and Machine Learning**: Work on cutting-edge AI projects and gain practical experience.\n"
      + "- **Web Development**: Hands-on experience with real-world web development tasks.\n"
      + "- **App Development**: Develop mobile applications and gain industry insights.\n"
      + "- **SEO and Digital Marketing**: Learn SEO and digital marketing strategies.\n\n"
      + "Explore our [Internships Page](https://techiehelp.com/internships) for more details."
    case Mission =>
      "TechieHelp's mission is to bridge the gap between education and industry by providing meaningful internship and development opportunities. We aim to empower students and professionals to achieve their career goals through practical experience and expert guidance."
    case Founder =>
      "TechieHelp was founded by Amit Kumar, a front-end developer and AI enthusiast. Amit Kumar is dedicated to creating a platform that facilitates skill development and career advancement. Connect with Amit Kumar on [LinkedIn](https://linkedin.com/in/amit-kumar)."
    case Contact =>
      "You can contact TechieHelp via email at info@techiehelp.com or visit our [website](https://techiehelp.com) for more information."
  }

  /**
   * The router's decision carried out: a canned branch answers with its topic's
   * constant and makes no remote call; the fallback makes exactly one call, with
   * the fixed preamble and the query as typed, and answers with what the model
   * generated.
   */
  function Respond(userQuery: string, model: Prompt -> string): (r: Reply)
    ensures r.calls == [] <==> Route(userQuery).Canned?
    ensures r.calls != [] ==> r.calls == [Prompt(PREAMBLE, userQuery)]
    ensures r.answer.Generated? <==> r.calls != []
  {
    match Route(userQuery)
    case Canned(t) => Reply(Fixed(t), [])
    case Forward(q) =>
      var prompt := Prompt(PREAMBLE, q);
      Reply(Generated(model(prompt)), [prompt])
  }

  /** The text an answer stands for. */
  function Render(a: Answer): string {
    match a
    case Fixed(t) => CannedText(t)
    case Generated(text) => text
  }

  /** `techiehelp_responses(userQuery)`: the string the router returns. */
  function Response(userQuery: string, model: Prompt -> string): (r: string)
    ensures Route(userQuery).Canned? ==> r == CannedText(Route(userQuery).topic)
    ensures Route(userQuery).Forward? ==> r == model(Prompt(PREAMBLE, userQuery))
  {
    Render(Respond(userQuery, model).answer)
  }

  // ---------------------------------------------------------------------
  // Properties of the router
  // ---------------------------------------------------------------------

  /** Every keyword is already lower case, so folding leaves it unchanged. */
  lemma KeywordIsLowerCase(t: Topic)
    ensures Lower(Keyword(t)) == Keyword(t)
  {
    LowerOfLowerCase(Keyword(t));
  }

  /** The keyword "techiehelp" occurs in "about techiehelp", at index 6. */
  lemma AboutPhraseHasKeyword(phrase: string)
    requires phrase == "about techiehelp"
    ensures Contains(phrase, "techiehelp")
  {
    assert phrase[6..16] == "techiehelp";
    assert OccursAt(phrase, "techiehelp", 6);
    ContainsIffOccurs(phrase, "techiehelp");
  }

  /** The first guard's "about techiehelp" disjunct is redundant. */
  lemma AboutDisjunctRedundant(query: string)
    ensures (Contains(query, "about techiehelp") || Contains(query, "techiehelp"))
        <==> Contains(query, "techiehelp")
  {
    if Contains(query, "about techiehelp") {
      AboutPhraseHasKeyword("about techiehelp");
      ContainsTransitive(query, "about techiehelp", "techiehelp");
    }
  }

  /** `Rank` gives each topic's position in `ORDER`. */
  lemma RankIsPosition(t: Topic)
    ensures Rank(t) < |ORDER| && ORDER[Rank(t)] == t
  {
  }

  /** The if/elif chain is the first-match scan of the guard table. */
  lemma RouteIsTableScan(userQuery: string)
    ensures Route(userQuery) ==
      match FirstMatch(Lower(userQuery), ORDER)
      case Some(k) => Canned(ORDER[k])
      case None => Forward(userQuery)
  {
    var query := Lower(userQuery);
    match FirstMatch(query, ORDER)
    case Some(k) =>
      var t := ORDER[k];
      forall s | Rank(s) < Rank(t)
        ensures !Contains(query, Keyword(s))
      {
        RankIsPosition(s);
        RankIsPosition(t);
        assert k == Rank(t) by {
          assert k < 6;
          if k == 0 {} else if k == 1 {} else if k == 2 {} else if k == 3 {} else if k == 4 {}
        }
      }
      FirstMatchWins(userQuery, t);
    case None =>
      forall t ensures !Contains(query, Keyword(t)) {
        RankIsPosition(t);
      }
      ForwardIffNoKeyword(userQuery);
  }

  /**
   * First match wins: the router answers topic `t` exactly when `t`'s keyword
   * is in the lower-cased query and no earlier guard's keyword is.
   */
  lemma FirstMatchWins(userQuery: string, t: Topic)
    ensures Route(userQuery) == Canned(t) <==>
      Contains(Lower(userQuery), Keyword(t)) &&
      forall s :: Rank(s) < Rank(t) ==> !Contains(Lower(userQuery), Keyword(s))
  {
    var query := Lower(userQuery);
    AboutDisjunctRedundant(query);
    var earlier := forall s :: Rank(s) < Rank(t) ==> !Contains(query, Keyword(s));
    match t
    case About =>
    case Services =>
      assert earlier <==> !Contains(query, Keyword(About));
    case Internships =>
      assert earlier <==> !Contains(query, Keyword(About)) && !Contains(query, Keyword(Services));
    case Mission =>
      assert earlier <==> (!Contains(query, Keyword(About)) && !Contains(query, Keyword(Services))
        && !Contains(query, Keyword(Internships)));
    case Founder =>
      assert earlier <==> (!Contains(query, Keyword(About)) && !Contains(query, Keyword(Services))
        && !Contains(query, Keyword(Internships)) && !Contains(query, Keyword(Mission)));
    case Contact =>
      assert earlier <==> (!Contains(query, Keyword(About)) && !Contains(query, Keyword(Services))
        && !Contains(query, Keyword(Internships)) && !Contains(query, Keyword(Mission))
        && !Contains(query, Keyword(Founder)));
  }

  /** A query whose lower-cased form contains "techiehelp" always gets the About text. */
  lemma TechieHelpAlwaysWins(userQuery: string, model: Prompt -> string)
    ensures Contains(Lower(userQuery), "techiehelp") <==> Route(userQuery) == Canned(About)
    ensures Contains(Lower(userQuery), "techiehelp") ==>
      Respond(userQuery, model) == Reply(Fixed(About), [])
  {
  }

  /**
   * The model is consulted exactly when no keyword occurs in the lower-cased
   * query, and then it receives the query as typed.
   */
  lemma ForwardIffNoKeyword(userQuery: string)
    ensures Route(userQuery).Forward? <==>
      forall t :: !Contains(Lower(userQuery), Keyword(t))
    ensures Route(userQuery).Forward? ==> Route(userQuery).query == userQuery
  {
  }

  /**
   * A canned branch returns its topic's constant, whatever else the query says
   * and whatever the model would answer, and makes no remote call.
   */
  lemma CannedIgnoresModel(userQuery: string, model1: Prompt -> string, model2: Prompt -> string)
    requires Route(userQuery).Canned?
    ensures Respond(userQuery, model1) == Respond(userQuery, model2)
    ensures Respond(userQuery, model1) == Reply(Fixed(Route(userQuery).topic), [])
    ensures Response(userQuery, model1) == Response(userQuery, model2)
    ensures Response(userQuery, model1) == CannedText(Route(userQuery).topic)
  {
  }

  /** Two queries routed to the same topic get the same text, whatever else they say. */
  lemma SameTopicSameText(a: string, b: string, model1: Prompt -> string, model2: Prompt -> string)
    requires Route(a).Canned? && Route(a) == Route(b)
    ensures Response(a, model1) == Response(b, model2)
  {
  }

  /**
   * The fallback makes exactly one remote call, with the fixed preamble and the
   * original (not lower-cased) query, and returns the model's text verbatim.
   */
  lemma FallbackForwardsVerbatim(userQuery: string, model: Prompt -> string)
    requires forall t :: !Contains(Lower(userQuery), Keyword(t))
    ensures Respond(userQuery, model).calls == [Prompt(PREAMBLE, userQuery)]
    ensures Response(userQuery, model) == model(Prompt(PREAMBLE, userQuery))
  {
  }

  /** A remote call is made if and only if no guard matches. */
  lemma RemoteCallIffNoKeyword(userQuery: string, model: Prompt -> string)
    ensures Respond(userQuery, model).calls != [] <==>
      forall t :: !Contains(Lower(userQuery), Keyword(t))
  {
  }

  /** Queries that lower-case alike are routed alike. */
  lemma RouteIgnoresCase(a: string, b: string)
    requires Lower(a) == Lower(b)
    ensures Route(a).Canned? <==> Route(b).Canned?
    ensures Route(a).Canned? ==> Route(a) == Route(b)
    ensures Route(a).Forward? ==> Route(a) == Forward(a) && Route(b) == Forward(b)
  {
  }

  /** In particular, a query and its lower-cased form select the same canned topic. */
  lemma RouteOfLowered(userQuery: string)
    ensures Route(Lower(userQuery)).Canned? <==> Route(userQuery).Canned?
    ensures Route(userQuery).Canned? ==> Route(Lower(userQuery)) == Route(userQuery)
  {
    LowerIdempotent(userQuery);
    RouteIgnoresCase(Lower(userQuery), userQuery);
  }

  /** Keywords are plain substrings: one glued inside a longer word still matches. */
  lemma KeywordInsideWord(pre: string, t: Topic, post: string)
    requires forall s :: Rank(s) < Rank(t) ==> !Contains(Lower(pre + Keyword(t) + post), Keyword(s))
    ensures Route(pre + Keyword(t) + post) == Canned(t)
  {
    var q := pre + Keyword(t) + post;
    KeywordIsLowerCase(t);
    LowerConcat(pre, Keyword(t));
    LowerConcat(pre + Keyword(t), post);
    ContainsInfix(Lower(pre), Keyword(t), Lower(post));
    FirstMatchWins(q, t);
  }

  /**
   * Matching ignores case and surrounding text: a word that lower-cases to a
   * keyword selects its topic wherever it stands, when no earlier keyword occurs.
   */
  lemma KeywordAnyCase(pre: string, w: string, post: string, t: Topic)
    requires Lower(w) == Keyword(t)
    requires forall s :: Rank(s) < Rank(t) ==> !Contains(Lower(pre + w + post), Keyword(s))
    ensures Route(pre + w + post) == Canned(t)
  {
    LowerConcat(pre, w);
    LowerConcat(pre + w, post);
    KeywordIsLowerCase(t);
    LowerConcat(pre, Keyword(t));
    LowerConcat(pre + Keyword(t), post);
    RouteIgnoresCase(pre + w + post, pre + Keyword(t) + post);
    KeywordInsideWord(pre, t, post);
  }

  /** "recontact" gets the Contact text although it is not the word "contact". */
  lemma RecontactMatchesContact(userQuery: string)
    requires userQuery == "recontact"
    ensures Route(userQuery) == Canned(Contact)
  {
    RecontactHasOnlyContact(userQuery);
    assert "re" + Keyword(Contact) + "" == userQuery;
    KeywordInsideWord("re", Contact, "");
  }

  /** Every keyword before "contact" needs a letter that "recontact" lacks. */
  lemma RecontactHasOnlyContact(query: string)
    requires query == "recontact"
    ensures Lower(query) == query
    ensures forall s :: Rank(s) < Rank(Contact) ==> !Contains(query, Keyword(s))
  {
    forall s | Rank(s) < Rank(Contact)
      ensures !Contains(query, Keyword(s))
    {
      if Contains(query, Keyword(s)) {
        match s
        case About => ContainsChar(query, Keyword(s), 9);
        case Services => ContainsChar(query, Keyword(s), 3);
        case Internships => ContainsChar(query, Keyword(s), 0);
        case Mission => ContainsChar(query, Keyword(s), 0);
        case Founder => ContainsChar(query, Keyword(s), 0);
      }
    }
    LowerOfLowerCase(query);
  }

  /** "internship" without the final "s" matches no guard and is forwarded. */
  lemma InternshipIsForwarded(userQuery: string)
    requires userQuery == "internship"
    ensures Route(userQuery) == Forward(userQuery)
  {
    LowerOfLowerCase(userQuery);
    InternshipHasNoKeyword(userQuery);
    ForwardIffNoKeyword(userQuery);
  }

  /** No keyword occurs in "internship": "internships" is longer, the others each need a letter it lacks. */
  lemma InternshipHasNoKeyword(query: string)
    requires query == "internship"
    ensures forall t :: !Contains(query, Keyword(t))
  {
    forall t ensures !Contains(query, Keyword(t)) {
      if Contains(query, Keyword(t)) {
        match t
        case About => ContainsChar(query, Keyword(t), 2);
        case Services => ContainsChar(query, Keyword(t), 3);
        case Internships =>
        case Mission => ContainsChar(query, Keyword(t), 0);
        case Founder => ContainsChar(query, Keyword(t), 0);
        case Contact => ContainsChar(query, Keyword(t), 0);
      }
    }
  }

  /** "What services does TechieHelp offer?" gets the About text, not the Services text. */
  lemma ServicesQuestionGetsAbout(userQuery: string, model: Prompt -> string)
    requires userQuery == "What services does TechieHelp offer?"
    ensures Route(userQuery) == Canned(About)
    ensures Respond(userQuery, model) == Reply(Fixed(About), [])
  {
    ServicesQuestionNamesTechieHelp(userQuery);
    TechieHelpAlwaysWins(userQuery, model);
  }

  /** The question lower-cases to a text that contains "techiehelp". */
  lemma ServicesQuestionNamesTechieHelp(userQuery: string)
    requires userQuery == "What services does TechieHelp offer?"
    ensures Contains(Lower(userQuery), "techiehelp")
  {
    var pre, word, post := "What services does ", "TechieHelp", " offer?";
    assert userQuery == pre + word + post;
    TechieHelpFolds(word);
    LowerConcat(pre, word);
    LowerConcat(pre + word, post);
    ContainsInfix(Lower(pre), Lower(word), Lower(post));
  }

  /** The brand name as written lower-cases to the first guard's keyword. */
  lemma TechieHelpFolds(word: string)
    requires word == "TechieHelp"
    ensures Lower(word) == Keyword(About)
  {
    forall i | 0 <= i < |word|
      ensures Lower(word)[i] == "techiehelp"[i]
    {
      LowerAt(word, i);
    }
  }

  /** A query naming only services gets the Services text. */
  lemma ServicesAnswer(userQuery: string, model: Prompt -> string)
    requires userQuery == "Our Services"
    ensures Route(userQuery) == Canned(Services)
    ensures Respond(userQuery, model) == Reply(Fixed(Services), [])
  {
    OurServicesKeywords(userQuery);
    FirstMatchWins(userQuery, Services);
  }

  /** "Our Services" lower-cases to a text holding "services" and not "techiehelp". */
  lemma OurServicesKeywords(userQuery: string)
    requires userQuery == "Our Services"
    ensures Contains(Lower(userQuery), Keyword(Services))
    ensures !Contains(Lower(userQuery), Keyword(About))
  {
    var query := Lower(userQuery);
    forall i | 0 <= i < |query|
      ensures query[i] == "our services"[i]
    {
      LowerAt(userQuery, i);
    }
    assert query == "our services";
    OurServicesHasServicesOnly(query);
  }

  /** "our services" holds "services" at index 4, and has no 'h', so no "techiehelp". */
  lemma OurServicesHasServicesOnly(query: string)
    requires query == "our services"
    ensures Contains(query, "services") && !Contains(query, "techiehelp")
  {
    if Contains(query, "techiehelp") { ContainsChar(query, "techiehelp", 3); }
    assert query[4..12] == "services";
    assert OccursAt(query, "services", 4);
    ContainsIffOccurs(query, "services");
  }
}
