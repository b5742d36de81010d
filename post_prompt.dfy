/**
 * The social-post prompt composer of the posts page: four lookup tables from
 * the form's closed option sets to French phrases, the custom-URL fallback,
 * the two yes/no flags, and the template that joins them into one prompt.
 */
module PostPrompt {
  import opened Text

  datatype Platform = Facebook | Instagram | Twitter | LinkedIn | TikTok
  datatype Objective = Awareness | Engagement | Conversion | Traffic
  datatype PostLength = Short | Medium | Long
  datatype Tone = Professional | Casual | Enthusiastic | Educational

  /**
   * A product as the page receives it. `price` is a number in the page; it is
   * held here as the text that number renders to inside the template.
   */
  datatype Product = Product(
    id: string, name: string, description: string, price: string,
    category: string, features: string, tags: string, url: string)

  /** The options chosen on the form. */
  datatype PostForm = PostForm(
    productId: string, objective: Objective, platform: Platform,
    length: PostLength, tone: Tone,
    includeHashtags: bool, includeEmojis: bool, customUrl: string)

  /** The form as the page first shows it. */
  const DefaultForm := PostForm("", Awareness, Instagram, Medium, Casual, true, true, "")

  /** The option value itself, as the template prints it in its last sentence. */
  function PlatformKey(p: Platform): string
  {
    match p
    case Facebook => "facebook"
    case Instagram => "instagram"
    case Twitter => "twitter"
    case LinkedIn => "linkedin"
    case TikTok => "tiktok"
  }

  /** The phrase of each platform, used in the request line and in the instructions. */
  const FacebookContext := "Facebook (format long acceptable, engagement communautaire)"
  const InstagramContext := "Instagram (visuel important, hashtags essentiels, stories possibles)"
  const TwitterContext := "X/Twitter (concis, maximum 280 caractères, trending topics)"
  const LinkedInContext := "LinkedIn (professionnel, B2B, expertise)"
  const TikTokContext := "TikTok (jeune audience, tendances, créatif)"

  function PlatformContext(p: Platform): string
  {
    match p
    case Facebook => FacebookContext
    case Instagram => InstagramContext
    case Twitter => TwitterContext
    case LinkedIn => LinkedInContext
    case TikTok => TikTokContext
  }

  /** The phrase of each objective, used in the request line and as the main objective. */
  const AwarenessContext := "sensibiliser et faire connaître le produit"
  const EngagementContext := "encourager les interactions, commentaires et partages"
  const ConversionContext := "inciter à l'achat ou à l'action"
  const TrafficContext := "diriger vers le site web ou la page produit"

  function ObjectiveContext(o: Objective): string
  {
    match o
    case Awareness => AwarenessContext
    case Engagement => EngagementContext
    case Conversion => ConversionContext
    case Traffic => TrafficContext
  }

  const ShortGuide := "un post concis et percutant"
  const MediumGuide := "un post équilibré avec détails importants"
  const LongGuide := "un post détaillé et informatif"

  function LengthGuide(l: PostLength): string
  {
    match l
    case Short => ShortGuide
    case Medium => MediumGuide
    case Long => LongGuide
  }

  const ProfessionalGuide := "un ton professionnel et sérieux"
  const CasualGuide := "un ton décontracté et accessible"
  const EnthusiasticGuide := "un ton enthousiaste et énergique"
  const EducationalGuide := "un ton informatif et pédagogique"

  function ToneGuide(t: Tone): string
  {
    match t
    case Professional => ProfessionalGuide
    case Casual => CasualGuide
    case Enthusiastic => EnthusiasticGuide
    case Educational => EducationalGuide
  }

  /**
   * Every option value has a non-empty phrase, and no two values of one option
   * set share a phrase: the prompt is defined for every form and tells the
   * options apart. Each table is told apart by one character of its phrases.
   */
  lemma PlatformTableInjective(a: Platform, b: Platform)
    ensures PlatformContext(a) != []
    ensures a != b ==> PlatformContext(a) != PlatformContext(b)
  {
    assert PlatformContext(Facebook) != PlatformContext(Instagram);
    assert PlatformContext(Facebook) != PlatformContext(Twitter);
    assert PlatformContext(Facebook) != PlatformContext(LinkedIn);
    assert PlatformContext(Facebook) != PlatformContext(TikTok);
    assert PlatformContext(Instagram) != PlatformContext(Twitter);
    assert PlatformContext(Instagram) != PlatformContext(LinkedIn);
    assert PlatformContext(Instagram) != PlatformContext(TikTok);
    assert PlatformContext(Twitter) != PlatformContext(LinkedIn);
    assert PlatformContext(Twitter) != PlatformContext(TikTok);
    assert PlatformContext(LinkedIn) != PlatformContext(TikTok);
  }

  lemma PlatformKeyInjective(a: Platform, b: Platform)
    ensures PlatformKey(a) != []
    ensures a != b ==> PlatformKey(a) != PlatformKey(b)
  {
    assert PlatformKey(Facebook) != PlatformKey(Instagram);
    assert PlatformKey(Facebook) != PlatformKey(Twitter);
    assert PlatformKey(Facebook) != PlatformKey(LinkedIn);
    assert PlatformKey(Facebook) != PlatformKey(TikTok);
    assert PlatformKey(Instagram) != PlatformKey(Twitter);
    assert PlatformKey(Instagram) != PlatformKey(LinkedIn);
    assert PlatformKey(Instagram) != PlatformKey(TikTok);
    assert PlatformKey(Twitter) != PlatformKey(LinkedIn);
    assert PlatformKey(Twitter) != PlatformKey(TikTok);
    assert PlatformKey(LinkedIn) != PlatformKey(TikTok);
  }

  lemma ObjectiveTableInjective(a: Objective, b: Objective)
    ensures ObjectiveContext(a) != []
    ensures a != b ==> ObjectiveContext(a) != ObjectiveContext(b)
  {
    assert ObjectiveContext(Awareness) != ObjectiveContext(Engagement);
    assert ObjectiveContext(Awareness) != ObjectiveContext(Conversion);
    assert ObjectiveContext(Awareness) != ObjectiveContext(Traffic);
    assert ObjectiveContext(Engagement) != ObjectiveContext(Conversion);
    assert ObjectiveContext(Engagement) != ObjectiveContext(Traffic);
    assert ObjectiveContext(Conversion) != ObjectiveContext(Traffic);
  }

  lemma LengthTableInjective(a: PostLength, b: PostLength)
    ensures LengthGuide(a) != []
    ensures a != b ==> LengthGuide(a) != LengthGuide(b)
  {
    assert LengthGuide(Short) != LengthGuide(Medium);
    assert LengthGuide(Short) != LengthGuide(Long);
    assert LengthGuide(Medium) != LengthGuide(Long);
  }

  lemma ToneTableInjective(a: Tone, b: Tone)
    ensures ToneGuide(a) != []
    ensures a != b ==> ToneGuide(a) != ToneGuide(b)
  {
    assert ToneGuide(Professional) != ToneGuide(Casual);
    assert ToneGuide(Professional) != ToneGuide(Enthusiastic);
    assert ToneGuide(Professional) != ToneGuide(Educational);
    assert ToneGuide(Casual) != ToneGuide(Enthusiastic);
    assert ToneGuide(Casual) != ToneGuide(Educational);
    assert ToneGuide(Enthusiastic) != ToneGuide(Educational);
  }

  function YesNo(b: bool): string
  {
    if b then "OUI" else "NON"
  }

  /** The fixed text of the template, piece by piece, in the order it appears. */
  const RequestOpening := "Créé un post pour "
  const ObjectiveJoin := " avec l'objectif de "
  const ProductHeading := ".\n\nPRODUIT À PROMOUVOIR :"
  const NameLabel := "\n- Nom : "
  const DescriptionLabel := "\n- Description : "
  const PriceLabel := "\n- Prix : "
  const EuroSign := "€"
  const CategoryLabel := "\n- Catégorie : "
  const FeaturesLabel := "\n- Caractéristiques clés : "
  const TagsLabel := "\n- Tags : "
  const UrlLabel := "\n- URL : "
  const InstructionsHeading := "\n\nCONSIGNES :"
  const PlatformLabel := "\n- Plateforme : "
  const LengthLabel := "\n- Longueur : "
  const ToneLabel := "\n- Ton : "
  const HashtagsLabel := "\n- Inclure des hashtags : "
  const EmojisLabel := "\n- Inclure des emojis : "
  const ObjectiveLabel := "\n- Objectif principal : "
  const HashtagInstruction := "\nInclus des hashtags pertinents pour maximiser la portée."
  const EmojiInstruction := "\nUtilise des emojis appropriés pour rendre le post plus engageant."
  const ClosingOpening := "\n\nAssure-toi que le post est optimisé pour "
  const ClosingEnd := " et respecte les bonnes pratiques de cette plateforme."

  /** `customUrl || product.url`: an empty custom URL is falsy and falls back to the product's. */
  function PostUrl(product: Product, form: PostForm): string
  {
    if form.customUrl != "" then form.customUrl else product.url
  }

  /** The first half of the template: the request line and the product block. */
  function ProductParts(product: Product, form: PostForm): seq<string>
  {
    [ RequestOpening, PlatformContext(form.platform),
      ObjectiveJoin, ObjectiveContext(form.objective),
      ProductHeading, NameLabel, product.name,
      DescriptionLabel, product.description,
      PriceLabel, product.price, EuroSign,
      CategoryLabel, product.category,
      FeaturesLabel, product.features,
      TagsLabel, product.tags,
      UrlLabel, PostUrl(product, form) ]
  }

  /** The second half of the template: the instructions, which depend on the form only. */
  function InstructionParts(form: PostForm): seq<string>
  {
    [ InstructionsHeading, PlatformLabel, PlatformContext(form.platform),
      LengthLabel, LengthGuide(form.length),
      ToneLabel, ToneGuide(form.tone),
      HashtagsLabel, YesNo(form.includeHashtags),
      EmojisLabel, YesNo(form.includeEmojis),
      ObjectiveLabel, ObjectiveContext(form.objective),
      "\n\n", if form.includeHashtags then HashtagInstruction else "",
      "\n", if form.includeEmojis then EmojiInstruction else "",
      ClosingOpening, PlatformKey(form.platform), ClosingEnd ]
  }

  function PromptParts(product: Product, form: PostForm): seq<string>
  {
    ProductParts(product, form) + InstructionParts(form)
  }

  /** The prompt sent to the model for `product` with the options of `form`. */
  function GeneratePrompt(product: Product, form: PostForm): string
  {
    Concat(PromptParts(product, form))
  }

  /*
   * Where the pieces stand (0-based). ProductParts: 1 platform phrase,
   * 3 objective phrase, 6 name, 8 description, 10 price, 11 EuroSign,
   * 13 category, 15 features, 17 tags, 19 URL. InstructionParts:
   * 0 InstructionsHeading, 2 platform phrase, 4 length phrase, 6 tone phrase,
   * 8 hashtags OUI/NON, 10 emojis OUI/NON, 12 objective phrase,
   * 14 hashtag sentence or "", 16 emoji sentence or "", 18 platform key.
   */

  /** The prompt is the product block followed by the instruction block. */
  lemma PromptSplits(product: Product, form: PostForm)
    ensures GeneratePrompt(product, form)
         == Concat(ProductParts(product, form)) + Concat(InstructionParts(form))
  {
    ConcatAppend(ProductParts(product, form), InstructionParts(form));
  }

  /** What the product block contains, the prompt contains. */
  lemma InProductBlock(product: Product, form: PostForm, w: string)
    requires Contains(Concat(ProductParts(product, form)), w)
    ensures Contains(GeneratePrompt(product, form), w)
  {
    PromptSplits(product, form);
    ContainsInHalves(Concat(ProductParts(product, form)), Concat(InstructionParts(form)), w);
  }

  /** What the instruction block contains, the prompt contains. */
  lemma InInstructionBlock(product: Product, form: PostForm, w: string)
    requires Contains(Concat(InstructionParts(form)), w)
    ensures Contains(GeneratePrompt(product, form), w)
  {
    PromptSplits(product, form);
    ContainsInHalves(Concat(ProductParts(product, form)), Concat(InstructionParts(form)), w);
  }

  /**
   * The product block lists each product field verbatim after its label, and
   * the price is immediately followed by the euro sign.
   */
  lemma PromptListsProduct(product: Product, form: PostForm)
    ensures var prompt := GeneratePrompt(product, form);
      && Contains(prompt, NameLabel + product.name)
      && Contains(prompt, DescriptionLabel + product.description)
      && Contains(prompt, PriceLabel + product.price + EuroSign)
      && Contains(prompt, CategoryLabel + product.category)
      && Contains(prompt, FeaturesLabel + product.features)
      && Contains(prompt, TagsLabel + product.tags)
  {
    var parts := ProductParts(product, form);
    TwoPiecesIn(parts, 5);
    InProductBlock(product, form, parts[5] + parts[6]);
    TwoPiecesIn(parts, 7);
    InProductBlock(product, form, parts[7] + parts[8]);
    ThreePiecesIn(parts, 9);
    InProductBlock(product, form, parts[9] + parts[10] + parts[11]);
    TwoPiecesIn(parts, 12);
    InProductBlock(product, form, parts[12] + parts[13]);
    TwoPiecesIn(parts, 14);
    InProductBlock(product, form, parts[14] + parts[15]);
    TwoPiecesIn(parts, 16);
    InProductBlock(product, form, parts[16] + parts[17]);
  }

  /**
   * The URL line holds the custom URL when one was typed and the product's URL
   * otherwise; the line ends the product block.
   */
  lemma PromptShowsUrl(product: Product, form: PostForm)
    ensures form.customUrl != "" ==>
      Contains(GeneratePrompt(product, form), UrlLabel + form.customUrl + InstructionsHeading)
    ensures form.customUrl == "" ==>
      Contains(GeneratePrompt(product, form), UrlLabel + product.url + InstructionsHeading)
  {
    var parts := PromptParts(product, form);
    assert parts[18] == UrlLabel && parts[19] == PostUrl(product, form);
    assert parts[20] == InstructionsHeading;
    ThreePiecesIn(parts, 18);
  }

  /** The platform phrase occurs twice: in the request line and in the instructions. */
  lemma PromptRepeatsPlatform(product: Product, form: PostForm)
    ensures ContainsTwice(GeneratePrompt(product, form), PlatformContext(form.platform))
  {
    PieceOnBothSides(ProductParts(product, form), InstructionParts(form), 1, 2);
  }

  /** The objective phrase occurs twice: in the request line and as the main objective. */
  lemma PromptRepeatsObjective(product: Product, form: PostForm)
    ensures ContainsTwice(GeneratePrompt(product, form), ObjectiveContext(form.objective))
  {
    PieceOnBothSides(ProductParts(product, form), InstructionParts(form), 3, 12);
  }

  /** The instruction block names the platform, length, tone and objective after their labels. */
  lemma PromptListsInstructions(product: Product, form: PostForm)
    ensures var prompt := GeneratePrompt(product, form);
      && Contains(prompt, PlatformLabel + PlatformContext(form.platform))
      && Contains(prompt, LengthLabel + LengthGuide(form.length))
      && Contains(prompt, ToneLabel + ToneGuide(form.tone))
      && Contains(prompt, ObjectiveLabel + ObjectiveContext(form.objective))
  {
    var parts := InstructionParts(form);
    TwoPiecesIn(parts, 1);
    InInstructionBlock(product, form, parts[1] + parts[2]);
    TwoPiecesIn(parts, 3);
    InInstructionBlock(product, form, parts[3] + parts[4]);
    TwoPiecesIn(parts, 5);
    InInstructionBlock(product, form, parts[5] + parts[6]);
    TwoPiecesIn(parts, 11);
    InInstructionBlock(product, form, parts[11] + parts[12]);
  }

  /**
   * The hashtags line reads OUI when the flag is set and NON when it is not,
   * and a set flag adds the hashtag instruction sentence.
   */
  lemma PromptHashtagLine(product: Product, form: PostForm)
    ensures form.includeHashtags ==>
      Contains(GeneratePrompt(product, form), HashtagsLabel + "OUI" + EmojisLabel)
    ensures !form.includeHashtags ==>
      Contains(GeneratePrompt(product, form), HashtagsLabel + "NON" + EmojisLabel)
    ensures form.includeHashtags ==> Contains(GeneratePrompt(product, form), HashtagInstruction)
  {
    var parts := InstructionParts(form);
    ThreePiecesIn(parts, 7);
    InInstructionBlock(product, form, parts[7] + parts[8] + parts[9]);
    if form.includeHashtags {
      PieceIn(parts, 14);
      InInstructionBlock(product, form, parts[14]);
    }
  }

  /**
   * The emojis line reads OUI when the flag is set and NON when it is not,
   * and a set flag adds the emoji instruction sentence.
   */
  lemma PromptEmojiLine(product: Product, form: PostForm)
    ensures form.includeEmojis ==>
      Contains(GeneratePrompt(product, form), EmojisLabel + "OUI" + ObjectiveLabel)
    ensures !form.includeEmojis ==>
      Contains(GeneratePrompt(product, form), EmojisLabel + "NON" + ObjectiveLabel)
    ensures form.includeEmojis ==> Contains(GeneratePrompt(product, form), EmojiInstruction)
  {
    var parts := InstructionParts(form);
    ThreePiecesIn(parts, 9);
    InInstructionBlock(product, form, parts[9] + parts[10] + parts[11]);
    if form.includeEmojis {
      PieceIn(parts, 16);
      InInstructionBlock(product, form, parts[16]);
    }
  }

  /**
   * The prompt opens with the request naming the platform and the objective,
   * and closes by asking for a post optimised for the platform, named by its key.
   */
  lemma PromptFrame(product: Product, form: PostForm)
    ensures StartsWith(GeneratePrompt(product, form),
      RequestOpening + PlatformContext(form.platform) + ObjectiveJoin)
    ensures EndsWith(GeneratePrompt(product, form),
      ClosingOpening + PlatformKey(form.platform) + ClosingEnd)
  {
    var front, back := ProductParts(product, form), InstructionParts(form);
    PromptSplits(product, form);
    ConcatStarts(front);
    ConcatEnds(back);
    StartsWithBeforeSuffix(Concat(front), Concat(back), front[0] + front[1] + front[2]);
    EndsWithAfterPrefix(Concat(front), Concat(back), back[17] + back[18] + back[19]);
  }

  /** The product block depends on the form only through its platform, objective and URL. */
  lemma ProductBlockIgnoresFlags(product: Product, form: PostForm, other: PostForm)
    requires other.platform == form.platform && other.objective == form.objective
    requires other.customUrl == form.customUrl
    ensures ProductParts(product, other) == ProductParts(product, form)
  {
    assert PostUrl(product, other) == PostUrl(product, form);
  }

  /** The hashtag flag shows in two instruction pieces only. */
  lemma InstructionsDifferAtHashtags(form: PostForm)
    ensures var i1, i0 := InstructionParts(form.(includeHashtags := true)), InstructionParts(form.(includeHashtags := false));
      |i1| == |i0| == 20 && forall k | 0 <= k < 20 && k != 8 && k != 14 :: i1[k] == i0[k]
  {
  }

  /** The emoji flag shows in two instruction pieces only. */
  lemma InstructionsDifferAtEmojis(form: PostForm)
    ensures var i1, i0 := InstructionParts(form.(includeEmojis := true)), InstructionParts(form.(includeEmojis := false));
      |i1| == |i0| == 20 && forall k | 0 <= k < 20 && k != 10 && k != 16 :: i1[k] == i0[k]
  {
  }

  /** Within the instruction block, the hashtag flag flips NON to OUI and inserts one sentence. */
  lemma InstructionsHashtagEffect(form: PostForm) returns (a: string, b: string, c: string)
    ensures Concat(InstructionParts(form.(includeHashtags := true))) == a + "OUI" + b + HashtagInstruction + c
    ensures Concat(InstructionParts(form.(includeHashtags := false))) == a + "NON" + b + c
    ensures EndsWith(a, HashtagsLabel)
  {
    var i1, i0 := InstructionParts(form.(includeHashtags := true)), InstructionParts(form.(includeHashtags := false));
    InstructionsDifferAtHashtags(form);
    a, b, c := PiecesDifferAt(i1, i0, 8, 14);
    assert i1[7] == HashtagsLabel && i1[8] == "OUI" && i1[14] == HashtagInstruction;
    assert i0[8] == "NON" && i0[14] == "";
  }

  /** Within the instruction block, the emoji flag flips NON to OUI and inserts one sentence. */
  lemma InstructionsEmojiEffect(form: PostForm) returns (a: string, b: string, c: string)
    ensures Concat(InstructionParts(form.(includeEmojis := true))) == a + "OUI" + b + EmojiInstruction + c
    ensures Concat(InstructionParts(form.(includeEmojis := false))) == a + "NON" + b + c
    ensures EndsWith(a, EmojisLabel)
  {
    var i1, i0 := InstructionParts(form.(includeEmojis := true)), InstructionParts(form.(includeEmojis := false));
    InstructionsDifferAtEmojis(form);
    a, b, c := PiecesDifferAt(i1, i0, 10, 16);
    assert i1[9] == EmojisLabel && i1[10] == "OUI" && i1[16] == EmojiInstruction;
    assert i0[10] == "NON" && i0[16] == "";
  }

  /** The prompt for `off` is the product block of `form` followed by the instructions of `off`. */
  lemma PromptWithFlags(product: Product, form: PostForm, off: PostForm)
    requires off.platform == form.platform && off.objective == form.objective
    requires off.customUrl == form.customUrl
    ensures GeneratePrompt(product, off) == Concat(ProductParts(product, form)) + Concat(InstructionParts(off))
  {
    ProductBlockIgnoresFlags(product, form, off);
    PromptSplits(product, off);
  }

  /**
   * Turning the hashtag flag on changes the prompt in exactly two places: the
   * hashtags line's NON becomes OUI, and the hashtag instruction sentence is
   * inserted. Nothing else in the prompt depends on the flag.
   */
  lemma HashtagFlagEffect(product: Product, form: PostForm) returns (a: string, b: string, c: string)
    ensures GeneratePrompt(product, form.(includeHashtags := true)) == a + "OUI" + b + HashtagInstruction + c
    ensures GeneratePrompt(product, form.(includeHashtags := false)) == a + "NON" + b + c
    ensures EndsWith(a, HashtagsLabel)
  {
    var front := Concat(ProductParts(product, form));
    var a', b', c' := InstructionsHashtagEffect(form);
    EndsWithAfterPrefix(front, a', HashtagsLabel);
    PromptWithFlags(product, form, form.(includeHashtags := true));
    PromptWithFlags(product, form, form.(includeHashtags := false));
    a, b, c := front + a', b', c';
    Regroup(front, a', "OUI", b, HashtagInstruction, c);
    Regroup(front, a', "NON", b, "", c);
  }

  /**
   * Turning the emoji flag on changes the prompt in exactly two places: the
   * emojis line's NON becomes OUI, and the emoji instruction sentence is
   * inserted. Nothing else in the prompt depends on the flag.
   */
  lemma EmojiFlagEffect(product: Product, form: PostForm) returns (a: string, b: string, c: string)
    ensures GeneratePrompt(product, form.(includeEmojis := true)) == a + "OUI" + b + EmojiInstruction + c
    ensures GeneratePrompt(product, form.(includeEmojis := false)) == a + "NON" + b + c
    ensures EndsWith(a, EmojisLabel)
  {
    var front := Concat(ProductParts(product, form));
    var a', b', c' := InstructionsEmojiEffect(form);
    EndsWithAfterPrefix(front, a', EmojisLabel);
    PromptWithFlags(product, form, form.(includeEmojis := true));
    PromptWithFlags(product, form, form.(includeEmojis := false));
    a, b, c := front + a', b', c';
    Regroup(front, a', "OUI", b, EmojiInstruction, c);
    Regroup(front, a', "NON", b, "", c);
  }
}
