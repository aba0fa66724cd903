/** The assistant's response resolver: an ordered cascade of keyword rules
    over the lower-cased query and a one-slot conversation context. The
    resolver gives back the reply together with the context for the next
    turn, which is where the component's only side effect goes. */
module Resolver {
  import opened Text
  import opened Knowledge

  /** The conversation context. The component keeps it as a string that only
      ever holds '', 'export', 'growing' or 'health'. */
  datatype Topic = NoTopic | Export | Growing | Health

  /** The string the component stores for each context value. */
  function TopicText(t: Topic): (r: string)
  {
    match t
    case NoTopic => ""
    case Export => "export"
    case Growing => "growing"
    case Health => "health"
  }

  /** The two substring tests the component runs on the context string single
      out one context value each. */
  lemma TopicTests(t: Topic)
    ensures Contains(TopicText(t), "export") <==> t == Export
    ensures Contains(TopicText(t), "grow") <==> t == Growing
  {
    match t
    case NoTopic =>
    case Export =>
      ContainsSelf("export");
      NotContainsFirstChar("export", "grow");
    case Growing =>
      NotContainsFirstChar("growing", "export");
      ContainsPiece("", "grow", "ing");
      assert "" + "grow" + "ing" == "growing";
    case Health =>
      assert "health"[..6][0] == 'h';
      NotContainsFirstChar("health", "grow");
  }

  /** The keyword groups, each tested on the lower-cased query. */
  predicate MentionsExport(q: string)
  {
    Contains(q, "export") || Contains(q, "business") || Contains(q, "market")
  }

  predicate MentionsGrowing(q: string)
  {
    Contains(q, "grow") || Contains(q, "plant") || Contains(q, "cultivat")
  }

  predicate MentionsHealth(q: string)
  {
    Contains(q, "benefit") || Contains(q, "medicinal") || Contains(q, "health")
  }

  predicate MentionsGreeting(q: string)
  {
    Contains(q, "hi") || Contains(q, "hello") || Contains(q, "namaste")
  }

  /** The context update: the first keyword group the query mentions decides
      the new context; a query that mentions none keeps the old one. */
  function Classify(q: string, current: Topic): (r: Topic)
  {
    if MentionsExport(q) then Export
    else if MentionsGrowing(q) then Growing
    else if MentionsHealth(q) then Health
    else current
  }

  /** The replies the resolver can give. */
  datatype Reply =
    | ExportDocuments
    | ExportPricing
    | SoilGuide
    | PlantInfo(plant: Plant)
    | GrowingOverview
    | ExportOverview
    | HealthOverview
    | Greeting
    | Fallback

  /** The replies that the context-qualified rules give. */
  predicate IsContextual(r: Reply)
  {
    r == ExportDocuments || r == ExportPricing || r == SoilGuide
  }

  /** The canned replies, written line by line. */
  const ExportDocumentsText: string :=
    "📋 **Export Documents Required:**\n" +
    "• Phytosanitary Certificate\n" +
    "• Certificate of Origin\n" +
    "• Quality Inspection Report\n" +
    "• Commercial Invoice\n" +
    "• Packing List\n" +
    "\n" +
    "Need help with specific documentation?"

  const ExportPricingText: string :=
    "💰 **Export Pricing Factors:**\n" +
    "• Quantity ordered\n" +
    "• Destination country\n" +
    "• Shipping method\n" +
    "• Quality grade\n" +
    "• Packaging requirements\n" +
    "\n" +
    "Tell me your specific needs for accurate pricing!"

  const SoilGuideText: string :=
    "🌱 **Soil Preparation Guide:**\n" +
    "\n" +
    "For medicinal plants:\n" +
    "• Well-drained soil mix\n" +
    "• Organic compost\n" +
    "• pH balance 6.0-7.0\n" +
    "• Proper drainage essential\n" +
    "• Regular soil testing recommended"

  const GrowingOverviewText: string :=
    "I specialize in medicinal plant cultivation! 🏡\n" +
    "\n" +
    "Popular plants for growing:\n" +
    "• Tulsi (Easy, high demand)\n" +
    "• Aloe Vera (Low maintenance)\n" +
    "• Turmeric (Good profitability)\n" +
    "\n" +
    "Tell me which plant you're interested in!"

  const ExportOverviewText: string :=
    "🌍 **Export Business Guidance:**\n" +
    "\n" +
    "High-demand export plants:\n" +
    "• Tulsi - US/Europe markets\n" +
    "• Aloe Vera - Cosmetics industry\n" +
    "• Turmeric - Global spice trade\n" +
    "\n" +
    "Requirements:\n" +
    "• Organic certification\n" +
    "• Quality packaging\n" +
    "• Export documentation\n" +
    "\n" +
    "Need specific market info?"

  const HealthOverviewText: string :=
    "💊 **Medicinal Plants Database:**\n" +
    "\n" +
    "I have detailed info on:\n" +
    "• Tulsi - Immunity & stress\n" +
    "• Aloe Vera - Skin & digestion\n" +
    "• Turmeric - Inflammation\n" +
    "• Many more...\n" +
    "\n" +
    "Which plant's health benefits interest you?"

  const GreetingText: string :=
    "Namaste! 🙏 I'm VrikshaVed AI, your plant expert.\n" +
    "\n" +
    "I can help with:\n" +
    "• Plant cultivation guidance\n" +
    "• Medicinal properties\n" +
    "• Export business tips\n" +
    "• Market analysis\n" +
    "\n" +
    "What would you like to explore today?"

  const FallbackText: string :=
    "I'm constantly learning about plants! 🌱\n" +
    "\n" +
    "I can best help with:\n" +
    "• Specific plant information (Tulsi, Aloe Vera, etc.)\n" +
    "• Growing techniques\n" +
    "• Export business guidance\n" +
    "• Medicinal benefits\n" +
    "\n" +
    "Try asking about a particular plant or topic!"

  /** The text of each reply. */
  function Render(reply: Reply): (r: string)
  {
    match reply
    case ExportDocuments => ExportDocumentsText
    case ExportPricing => ExportPricingText
    case SoilGuide => SoilGuideText
    case PlantInfo(p) => PlantBlock(p)
    case GrowingOverview => GrowingOverviewText
    case ExportOverview => ExportOverviewText
    case HealthOverview => HealthOverviewText
    case Greeting => GreetingText
    case Fallback => FallbackText
  }

  /** What one call of the resolver produces: the reply and the context for
      the next turn. */
  datatype Response = Response(reply: Reply, context: Topic)

  /** The rules that follow the context update: plant lookup, then the four
      keyword categories, then the default reply. */
  function GeneralReply(q: string): (r: Reply)
  {
    match Lookup(q)
    case Some(p) => PlantInfo(p)
    case None =>
      if MentionsGrowing(q) then GrowingOverview
      else if MentionsExport(q) then ExportOverview
      else if MentionsHealth(q) then HealthOverview
      else if MentionsGreeting(q) then Greeting
      else Fallback
  }

  /** The whole resolver. A context-qualified rule answers with the context
      left as it was; otherwise the context is updated and the general rules
      answer. */
  function Resolve(query: string, context: Topic): (r: Response)
  {
    var q := Lower(query);
    var c := TopicText(context);
    if Contains(c, "export") && Contains(q, "document") then Response(ExportDocuments, context)
    else if Contains(c, "export") && Contains(q, "price") then Response(ExportPricing, context)
    else if Contains(c, "grow") && Contains(q, "soil") then Response(SoilGuide, context)
    else Response(GeneralReply(q), Classify(q, context))
  }

  /** The export-documents checklist is given exactly when the context is
      export and the query mentions "document". */
  lemma ExportDocumentsIff(query: string, context: Topic)
    ensures Resolve(query, context).reply == ExportDocuments <==>
              context == Export && Contains(Lower(query), "document")
  {
    TopicTests(context);
  }

  /** The export-pricing reply is given exactly when the context is export and
      the query mentions "price" but not "document": documents win. */
  lemma ExportPricingIff(query: string, context: Topic)
    ensures Resolve(query, context).reply == ExportPricing <==>
              context == Export && !Contains(Lower(query), "document") && Contains(Lower(query), "price")
  {
    TopicTests(context);
  }

  /** The soil guide is given exactly when the context is growing and the
      query mentions "soil"; with any other context it never is. */
  lemma SoilGuideIff(query: string, context: Topic)
    ensures Resolve(query, context).reply == SoilGuide <==>
              context == Growing && Contains(Lower(query), "soil")
  {
    TopicTests(context);
  }

  /** A context-qualified reply leaves the context exactly as it was; any other
      reply comes with the context update applied. */
  lemma ContextUpdateOnlyWhenUnqualified(query: string, context: Topic)
    ensures IsContextual(Resolve(query, context).reply) ==> Resolve(query, context).context == context
    ensures !IsContextual(Resolve(query, context).reply) ==>
              Resolve(query, context).context == Classify(Lower(query), context)
  {
  }

  /** The update follows the first keyword group in the order export, growing,
      health; without a keyword the context is kept, so it is never reset to
      the empty context once set. */
  lemma ClassifyOrder(q: string, current: Topic)
    ensures MentionsExport(q) ==> Classify(q, current) == Export
    ensures !MentionsExport(q) && MentionsGrowing(q) ==> Classify(q, current) == Growing
    ensures !MentionsExport(q) && !MentionsGrowing(q) && MentionsHealth(q) ==> Classify(q, current) == Health
    ensures !MentionsExport(q) && !MentionsGrowing(q) && !MentionsHealth(q) ==> Classify(q, current) == current
    ensures Classify(q, current) == NoTopic ==> current == NoTopic
  {
  }

  /** No turn resets a set context. */
  lemma ResolveNeverResets(query: string, context: Topic)
    ensures context != NoTopic ==> Resolve(query, context).context != NoTopic
  {
  }

  /** When no context-qualified rule applies, a plant named in the query is
      answered with its block, ahead of every keyword category. */
  lemma PlantBeforeCategories(query: string, context: Topic)
    requires !(context == Export && (Contains(Lower(query), "document") || Contains(Lower(query), "price")))
    requires !(context == Growing && Contains(Lower(query), "soil"))
    requires Lookup(Lower(query)).Some?
    ensures Resolve(query, context).reply == PlantInfo(Lookup(Lower(query)).value)
  {
    TopicTests(context);
  }

  /** Without a context-qualified rule or a plant, the keyword categories are
      tried in the order growing, export, health, greeting. */
  lemma CategoryOrder(query: string, context: Topic)
    requires !(context == Export && (Contains(Lower(query), "document") || Contains(Lower(query), "price")))
    requires !(context == Growing && Contains(Lower(query), "soil"))
    requires Lookup(Lower(query)).None?
    ensures var q := Lower(query); var r := Resolve(query, context).reply;
      && (MentionsGrowing(q) ==> r == GrowingOverview)
      && (!MentionsGrowing(q) && MentionsExport(q) ==> r == ExportOverview)
      && (!MentionsGrowing(q) && !MentionsExport(q) && MentionsHealth(q) ==> r == HealthOverview)
      && (!MentionsGrowing(q) && !MentionsExport(q) && !MentionsHealth(q) && MentionsGreeting(q) ==>
            r == Greeting)
  {
    TopicTests(context);
  }

  /** The reply rules try growing before export while the context update tries
      export first: a query that mentions both, and no plant, is answered with
      the growing overview yet moves the context to export. */
  lemma GrowingReplyExportContext(query: string, context: Topic)
    requires !(context == Export && (Contains(Lower(query), "document") || Contains(Lower(query), "price")))
    requires !(context == Growing && Contains(Lower(query), "soil"))
    requires Lookup(Lower(query)).None?
    requires MentionsGrowing(Lower(query)) && MentionsExport(Lower(query))
    ensures Resolve(query, context) == Response(GrowingOverview, Export)
  {
    TopicTests(context);
  }

  /** "tulsi export" from a fresh context: the tulsi block is the reply, and
      the context still moves to export. */
  lemma TulsiExport(query: string)
    requires Contains(Lower(query), "tulsi") && Contains(Lower(query), "export")
    ensures Resolve(query, NoTopic) == Response(PlantInfo(Tulsi), Export)
  {
    TopicTests(NoTopic);
    LookupOrder(Lower(query));
  }

  /** The default reply is given exactly when no earlier rule matches. */
  lemma FallbackIff(query: string, context: Topic)
    ensures var q := Lower(query);
      Resolve(query, context).reply == Fallback <==>
        !(context == Export && (Contains(q, "document") || Contains(q, "price")))
        && !(context == Growing && Contains(q, "soil"))
        && Lookup(q).None?
        && !MentionsGrowing(q) && !MentionsExport(q) && !MentionsHealth(q) && !MentionsGreeting(q)
  {
    TopicTests(context);
  }

  /** Matching ignores case: the response depends only on the lower-cased
      query and the context. */
  lemma CaseInsensitive(query: string, context: Topic)
    ensures Resolve(query, context) == Resolve(Lower(query), context)
  {
    LowerIdempotent(query);
  }

  /** Every plant reply presents one of the three plants of the database. */
  lemma PlantReplyFromDatabase(query: string, context: Topic)
    ensures var r := Resolve(query, context).reply;
      r.PlantInfo? ==> r.plant == Tulsi || r.plant == AloeVera || r.plant == Turmeric
  {
    LookupOrder(Lower(query));
  }

  /** A plant reply names the plant, lists every benefit as a bullet, and
      gives the price, every export market and the harvest time. */
  lemma PlantReplyMentions(p: Plant)
    ensures var text := Render(PlantInfo(p));
      && Contains(text, p.name)
      && (forall i :: 0 <= i < |p.benefits| ==> Contains(text, "• " + p.benefits[i]))
      && Contains(text, p.price)
      && Contains(text, Join(p.exportMarkets, ", "))
      && (forall i :: 0 <= i < |p.exportMarkets| ==> Contains(text, p.exportMarkets[i]))
      && Contains(text, p.harvesting)
  {
    PlantBlockFacts(p);
    PlantBlockBenefits(p);
    PlantBlockMarkets(p);
  }

  /** A plant key mentions no keyword of any other rule. */
  predicate QuietKey(k: string)
  {
    Lower(k) == k && !MentionsExport(k) && !MentionsGrowing(k) && !MentionsHealth(k)
    && !Contains(k, "document") && !Contains(k, "price") && !Contains(k, "soil")
  }

  lemma KeywordsAbsent(k: string)
    requires k == "tulsi" || k == "aloe vera" || k == "turmeric"
    ensures QuietKey(k)
  {
    KeyIsLower(k);
    ContextKeywordsAbsent(k);
    ExportKeywordsAbsent(k);
    GrowingKeywordsAbsent(k);
    HealthKeywordsAbsent(k);
  }

  lemma KeyIsLower(k: string)
    requires k == "tulsi" || k == "aloe vera" || k == "turmeric"
    ensures Lower(k) == k
  {
    assert forall c :: c in k ==> c == ' ' || 'a' <= c <= 'z';
    LowerNoCapitals(k);
  }

  lemma ContextKeywordsAbsent(k: string)
    requires k == "tulsi" || k == "aloe vera" || k == "turmeric"
    ensures !Contains(k, "document") && !Contains(k, "price") && !Contains(k, "soil")
  {
    NotContainsFirstChar(k, "document");
    NotContainsFirstChar(k, "price");
    NotContainsFirstChar(k, "soil");
  }

  lemma ExportKeywordsAbsent(k: string)
    requires k == "tulsi" || k == "aloe vera" || k == "turmeric"
    ensures !MentionsExport(k)
  {
    MissingChar(k, "export", 1);
    NotContainsFirstChar(k, "business");
    NotContainsFirstChar(k, "market");
  }

  lemma GrowingKeywordsAbsent(k: string)
    requires k == "tulsi" || k == "aloe vera" || k == "turmeric"
    ensures !MentionsGrowing(k)
  {
    NotContainsFirstChar(k, "grow");
    NotContainsFirstChar(k, "plant");
    NotContainsFirstChar(k, "cultivat");
  }

  lemma HealthKeywordsAbsent(k: string)
    requires k == "tulsi" || k == "aloe vera" || k == "turmeric"
    ensures !MentionsHealth(k)
  {
    NotContainsFirstChar(k, "benefit");
    NotContainsFirstChar(k, "medicinal");
    NotContainsFirstChar(k, "health");
  }

  /** Each key is found by the lookup as its own plant. */
  lemma KeyLooksUpItself(i: int)
    requires 0 <= i < |Database|
    ensures Lookup(Database[i].key) == Some(Database[i].plant)
  {
    var k := Database[i].key;
    ContainsSelf(k);
    if i > 0 {
      MissingChar(k, "tulsi", 3);
    }
    LookupOrder(k);
  }

  /** Each plant key on its own is answered with that plant's block, whatever
      the context, and leaves the context as it was. */
  lemma PlantKeyResolves(i: int, context: Topic)
    requires 0 <= i < |Database|
    ensures Resolve(Database[i].key, context) == Response(PlantInfo(Database[i].plant), context)
  {
    KeywordsAbsent(Database[i].key);
    KeyLooksUpItself(i);
    TopicTests(context);
  }

  /** The greeting rule tests the substring "hi", so a word such as "which"
      that matches no earlier rule is answered with the greeting. */
  lemma GreetingMatchesInsideWords()
    ensures Resolve("which", NoTopic) == Response(Greeting, NoTopic)
  {
    var q := "which";
    assert Lower(q) == q;
    ContainsPiece("w", "hi", "ch");
    assert "w" + "hi" + "ch" == q;
    NotContainsFirstChar(q, "tulsi");
    NotContainsFirstChar(q, "aloe vera");
    NotContainsFirstChar(q, "turmeric");
    NotContainsFirstChar(q, "grow");
    NotContainsFirstChar(q, "plant");
    LookupOrder(q);
  }
}
