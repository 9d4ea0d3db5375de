/** The cookbook data model: closed string-literal unions as datatypes, the
    `Cookbook` and `CookbookTemplate` records, and the per-plan usage limits. */
module Types {
  import opened Wrappers

  /** `CookbookType`: seven string literals. */
  datatype CookbookType =
    | RecipeCollection | MealPlan | CuisineGuide | CookingTips
    | IngredientGuide | DietPlan | BakingGuide

  /** `Tone`: four string literals. */
  datatype Tone = Professional | Friendly | Educational | Persuasive

  /** `Length`: three string literals. */
  datatype Length = Short | Standard | Detailed

  /** `CookbookStatus`: four string literals. */
  datatype CookbookStatus = Draft | Generating | Complete | Error

  /** `CookbookDesign.titleSize`. */
  datatype TitleSize = Small | Medium | Large

  /** The export formats named in the model: a cookbook records 'pdf', 'png'
      and 'html'; the plan limits only ever list 'pdf' and 'html'. */
  datatype Format = Pdf | Png | Html

  /** `UserProfile['plan']`. */
  datatype Plan = Free | Pro | Unlimited

  /** A JavaScript `Date`, as milliseconds since the epoch. */
  type Date = int

  /** The literal text of each cookbook type. */
  function CookbookTypeName(t: CookbookType): string {
    match t
    case RecipeCollection => "recipe-collection"
    case MealPlan => "meal-plan"
    case CuisineGuide => "cuisine-guide"
    case CookingTips => "cooking-tips"
    case IngredientGuide => "ingredient-guide"
    case DietPlan => "diet-plan"
    case BakingGuide => "baking-guide"
  }

  /** Reading a string as a cookbook type: only the seven literals are types. */
  function ParseCookbookType(s: string): (r: Option<CookbookType>)
    ensures r.Some? ==> CookbookTypeName(r.value) == s
  {
    if s == "recipe-collection" then Some(RecipeCollection)
    else if s == "meal-plan" then Some(MealPlan)
    else if s == "cuisine-guide" then Some(CuisineGuide)
    else if s == "cooking-tips" then Some(CookingTips)
    else if s == "ingredient-guide" then Some(IngredientGuide)
    else if s == "diet-plan" then Some(DietPlan)
    else if s == "baking-guide" then Some(BakingGuide)
    else None
  }

  /** Every cookbook type reads back from its literal. */
  lemma CookbookTypeNameRoundTrip(t: CookbookType)
    ensures ParseCookbookType(CookbookTypeName(t)) == Some(t)
  {
  }

  /** The literal text of each status. */
  function CookbookStatusName(s: CookbookStatus): string {
    match s
    case Draft => "draft"
    case Generating => "generating"
    case Complete => "complete"
    case Error => "error"
  }

  /** Reading a string as a status: only the four literals are statuses. */
  function ParseCookbookStatus(s: string): (r: Option<CookbookStatus>)
    ensures r.Some? ==> CookbookStatusName(r.value) == s
  {
    if s == "draft" then Some(Draft)
    else if s == "generating" then Some(Generating)
    else if s == "complete" then Some(Complete)
    else if s == "error" then Some(Error)
    else None
  }

  /** Every status reads back from its literal. */
  lemma CookbookStatusNameRoundTrip(s: CookbookStatus)
    ensures ParseCookbookStatus(CookbookStatusName(s)) == Some(s)
  {
  }

  /** All cookbook types, in declaration order: seven distinct values. */
  function AllCookbookTypes(): (r: seq<CookbookType>)
    ensures |r| == 7
    ensures forall i, j :: 0 <= i < j < |r| ==> r[i] != r[j]
  {
    [RecipeCollection, MealPlan, CuisineGuide, CookingTips, IngredientGuide, DietPlan, BakingGuide]
  }

  /** ... and no other: every cookbook type is listed, so there are exactly seven. */
  lemma AllCookbookTypesComplete(t: CookbookType)
    ensures t in AllCookbookTypes()
  {
    var r := AllCookbookTypes();
    match t
    case RecipeCollection => assert r[0] == t;
    case MealPlan => assert r[1] == t;
    case CuisineGuide => assert r[2] == t;
    case CookingTips => assert r[3] == t;
    case IngredientGuide => assert r[4] == t;
    case DietPlan => assert r[5] == t;
    case BakingGuide => assert r[6] == t;
  }

  /** All statuses, in declaration order: four distinct values. */
  function AllCookbookStatuses(): (r: seq<CookbookStatus>)
    ensures |r| == 4
    ensures forall i, j :: 0 <= i < j < |r| ==> r[i] != r[j]
  {
    [Draft, Generating, Complete, Error]
  }

  /** ... and no other: every status is listed, so there are exactly four. */
  lemma AllCookbookStatusesComplete(s: CookbookStatus)
    ensures s in AllCookbookStatuses()
  {
    var r := AllCookbookStatuses();
    match s
    case Draft => assert r[0] == s;
    case Generating => assert r[1] == s;
    case Complete => assert r[2] == s;
    case Error => assert r[3] == s;
  }

  /** `CookbookDesign`. */
  datatype CookbookDesign = CookbookDesign(
    primaryColor: string,
    secondaryColor: string,
    backgroundColor: string,
    textColor: string,
    fontFamily: string,
    titleSize: TitleSize,
    template: string,
    showLogo: bool,
    logoUrl: Option<string>,
    companyName: Option<string>,
    websiteUrl: Option<string>,
    ctaText: Option<string>,
    ctaUrl: Option<string>)

  /** `Partial<CookbookDesign>`: every key may be absent. */
  datatype PartialDesign = PartialDesign(
    primaryColor: Option<string>,
    secondaryColor: Option<string>,
    backgroundColor: Option<string>,
    textColor: Option<string>,
    fontFamily: Option<string>,
    titleSize: Option<TitleSize>,
    template: Option<string>,
    showLogo: Option<bool>,
    logoUrl: Option<string>,
    companyName: Option<string>,
    websiteUrl: Option<string>,
    ctaText: Option<string>,
    ctaUrl: Option<string>)

  /** `Cookbook`. The source's key `type` is `cookbookType` here. */
  datatype Cookbook = Cookbook(
    id: string,
    userId: string,
    title: string,
    subtitle: Option<string>,
    description: Option<string>,
    cookbookType: CookbookType,
    content: string,
    rawContent: Option<string>,
    targetAudience: Option<string>,
    problemSolved: Option<string>,
    niche: Option<string>,
    tone: Tone,
    length: Length,
    prompt: Option<string>,
    design: CookbookDesign,
    status: CookbookStatus,
    wordCount: int,
    itemCount: Option<int>,
    createdAt: Date,
    updatedAt: Date,
    generatedAt: Option<Date>,
    exportedFormats: Option<seq<Format>>,
    downloadCount: int)

  /** `CookbookTemplate`. */
  datatype CookbookTemplate = CookbookTemplate(
    id: string,
    name: string,
    description: string,
    cookbookType: CookbookType,
    category: string,
    thumbnail: string,
    defaultTitle: string,
    defaultPrompt: string,
    exampleContent: string,
    defaultDesign: PartialDesign,
    popular: bool,
    isPremium: bool)

  /** `UsageLimits`; `maxCookbooks == -1` is the source's sentinel for "no limit". */
  datatype UsageLimits = UsageLimits(
    maxCookbooks: int,
    exportFormats: seq<Format>,
    premiumTemplates: bool,
    priorityGeneration: bool)

  /** `PLAN_LIMITS`, a total table over the three plans. The free plan allows
      one cookbook and PDF export; both paid plans are unlimited, export PDF
      and HTML, and get premium templates and priority generation. */
  function PlanLimits(plan: Plan): (r: UsageLimits)
    ensures plan == Free ==> r.maxCookbooks == 1 && r.exportFormats == [Pdf]
    ensures plan != Free ==> r.maxCookbooks == -1 && r.exportFormats == [Pdf, Html]
    ensures r.premiumTemplates == r.priorityGeneration == (plan != Free)
    ensures Png !in r.exportFormats && Pdf in r.exportFormats
  {
    match plan
    case Free => UsageLimits(1, [Pdf], false, false)
    case Pro => UsageLimits(-1, [Pdf, Html], true, true)
    case Unlimited => UsageLimits(-1, [Pdf, Html], true, true)
  }

  /** The literal text of each plan. */
  function PlanName(plan: Plan): string {
    match plan
    case Free => "free"
    case Pro => "pro"
    case Unlimited => "unlimited"
  }

  /** Reading a string as a plan: only the three literals are plans. */
  function ParsePlan(s: string): (r: Option<Plan>)
    ensures r.Some? ==> PlanName(r.value) == s
  {
    if s == "free" then Some(Free)
    else if s == "pro" then Some(Pro)
    else if s == "unlimited" then Some(Unlimited)
    else None
  }

  /** The table is total: every plan name looks up a limits record, and only
      the free plan caps the number of cookbooks. */
  lemma PlanLimitsTotal(s: string)
    requires s in {"free", "pro", "unlimited"}
    ensures ParsePlan(s).Some?
    ensures PlanLimits(ParsePlan(s).value).maxCookbooks == if s == "free" then 1 else -1
  {
  }
}
