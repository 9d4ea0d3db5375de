/** The template catalogue: per-type metadata (`COOKBOOK_TYPES`), the shipped
    templates (`TEMPLATES`) and the three order-preserving queries over them. */
module Templates {
  import opened Wrappers
  import opened Seqs
  import opened Types

  /** The metadata record `COOKBOOK_TYPES` keeps for each cookbook type. */
  datatype TypeInfo = TypeInfo(
    labelText: string,   // the source's `label` (a Dafny keyword)
    description: string,
    icon: string,
    defaultItemCount: Option<nat>,
    examples: seq<string>,
    structureHint: string)

  /** `COOKBOOK_TYPES[t]`: a `Record` over `CookbookType`, so the lookup is
      total. Each field of the record is given by its own function below. */
  function CookbookTypeInfo(t: CookbookType): (r: TypeInfo)
    ensures r.defaultItemCount.Some? <==> t == RecipeCollection || t == MealPlan
    ensures |r.examples| >= 2
  {
    TypeInfo(TypeLabel(t), TypeDescription(t), TypeIcon(t), DefaultItemCount(t), TypeExamples(t), StructureHint(t))
  }

  /** `COOKBOOK_TYPES[t].defaultItemCount`: only recipe collections (10) and
      meal plans (7) carry a default item count. */
  function DefaultItemCount(t: CookbookType): (r: Option<nat>)
    ensures r.Some? <==> t == RecipeCollection || t == MealPlan
    ensures t == RecipeCollection ==> r == Some(10)
    ensures t == MealPlan ==> r == Some(7)
  {
    match t
    case RecipeCollection => Some(10)
    case MealPlan => Some(7)
    case _ => None
  }

  /** `COOKBOOK_TYPES[t].label`. */
  function TypeLabel(t: CookbookType): string {
    match t
    case RecipeCollection => "Recipe Collection"
    case MealPlan => "Meal Plan"
    case CuisineGuide => "Cuisine Guide"
    case CookingTips => "Cooking Tips"
    case IngredientGuide => "Ingredient Guide"
    case DietPlan => "Diet Plan"
    case BakingGuide => "Baking Guide"
  }

  /** `COOKBOOK_TYPES[t].description`. */
  function TypeDescription(t: CookbookType): string {
    match t
    case RecipeCollection => "Curated collection of recipes around a theme"
    case MealPlan => "Weekly or monthly meal planning guide"
    case CuisineGuide => "Deep dive into a specific cuisine"
    case CookingTips => "Pro tips and kitchen hacks"
    case IngredientGuide => "Master a specific ingredient"
    case DietPlan => "Specialized dietary recipes"
    case BakingGuide => "Baking recipes and techniques"
  }

  /** `COOKBOOK_TYPES[t].icon`, the name of an icon component. */
  function TypeIcon(t: CookbookType): string {
    match t
    case RecipeCollection => "BookOpen"
    case MealPlan => "Calendar"
    case CuisineGuide => "Globe"
    case CookingTips => "Lightbulb"
    case IngredientGuide => "Leaf"
    case DietPlan => "Heart"
    case BakingGuide => "Cake"
  }

  /** `COOKBOOK_TYPES[t].examples`. */
  function TypeExamples(t: CookbookType): (r: seq<string>)
    ensures |r| >= 2
  {
    match t
    case RecipeCollection => ["30-Minute Weeknight Dinners", "Holiday Cookie Collection", "One-Pot Comfort Meals"]
    case MealPlan => ["7-Day Healthy Meal Plan", "Budget-Friendly Weekly Menu"]
    case CuisineGuide => ["Essential Thai Cooking", "Italian Kitchen Basics"]
    case CookingTips => ["Knife Skills 101", "25 Time-Saving Kitchen Hacks"]
    case IngredientGuide => ["Everything About Garlic", "Seasonal Produce Guide"]
    case DietPlan => ["Keto Recipe Collection", "Plant-Based Starter Guide"]
    case BakingGuide => ["Sourdough for Beginners", "Perfect Pie Crusts"]
  }

  /** `COOKBOOK_TYPES[t].structureHint`, the outline handed to the generator. */
  function StructureHint(t: CookbookType): string {
    match t
    case RecipeCollection =>
      "Create a beautiful recipe collection with:\n1. **Appetizing Introduction** - Set the theme\n2. **Clear Recipe Cards** - Ingredients & steps\n3. **Pro Tips** - Kitchen wisdom"
    case MealPlan => "Create a practical meal planning guide."
    case CuisineGuide => "Create an educational cuisine exploration."
    case CookingTips => "Create actionable cooking advice."
    case IngredientGuide => "Create a comprehensive ingredient reference."
    case DietPlan => "Create diet-focused recipe content."
    case BakingGuide => "Create detailed baking instructions."
  }

  /** Distinct types have distinct labels. */
  lemma TypeLabelsDistinct(t: CookbookType, u: CookbookType)
    requires t != u
    ensures TypeLabel(t) != TypeLabel(u)
  {
  }

  /** A design default with only a primary colour and a template id set. */
  function DesignDefault(primaryColor: string, template: string): (d: PartialDesign)
    ensures d.primaryColor == Some(primaryColor) && d.template == Some(template)
    ensures d.secondaryColor.None? && d.backgroundColor.None? && d.textColor.None?
    ensures d.fontFamily.None? && d.titleSize.None? && d.showLogo.None? && d.logoUrl.None?
    ensures d.companyName.None? && d.websiteUrl.None? && d.ctaText.None? && d.ctaUrl.None?
  {
    PartialDesign(Some(primaryColor), None, None, None, None, None, Some(template), None, None, None, None, None, None)
  }

  const WeeknightDinners: CookbookTemplate := CookbookTemplate(
    "weeknight-dinners", "30-Minute Weeknight Dinners", "Quick and easy dinners for busy families",
    RecipeCollection, "Quick Meals", "/templates/weeknight-dinners.png",
    "30-Minute Weeknight Dinners",
    "Create a collection of quick, family-friendly dinner recipes that can be prepared in 30 minutes or less, using common pantry ingredients.",
    "", DesignDefault("#ea580c", "modern-recipe"), true, false)

  const HealthyMealPrep: CookbookTemplate := CookbookTemplate(
    "healthy-meal-prep", "Healthy Meal Prep Guide", "Plan and prep your week in advance",
    MealPlan, "Meal Planning", "/templates/meal-prep.png",
    "Weekly Healthy Meal Prep Guide",
    "Create a comprehensive meal prep guide with recipes that can be prepared on Sunday and enjoyed throughout the week, focusing on balanced nutrition.",
    "", DesignDefault("#16a34a", "clean-recipe"), true, false)

  const ComfortFoodClassics: CookbookTemplate := CookbookTemplate(
    "comfort-food-classics", "Comfort Food Classics", "Cozy recipes for the soul",
    RecipeCollection, "Comfort Food", "/templates/comfort-food.png",
    "Comfort Food Classics Cookbook",
    "Create a collection of heartwarming comfort food recipes including soups, casseroles, and classic dishes that bring warmth and nostalgia.",
    "", DesignDefault("#d97706", "clean-recipe"), true, false)

  /** `TEMPLATES`, the shipped catalogue in its declared order. */
  function AllTemplates(): (r: seq<CookbookTemplate>)
    ensures |r| == 3
  {
    [WeeknightDinners, HealthyMealPrep, ComfortFoodClassics]
  }

  /** Template ids are pairwise distinct. */
  lemma TemplateIdsDistinct(i: nat, j: nat)
    requires i < j < |AllTemplates()|
    ensures AllTemplates()[i].id != AllTemplates()[j].id
  {
    assert WeeknightDinners.id[0] != HealthyMealPrep.id[0];
    assert WeeknightDinners.id[0] != ComfortFoodClassics.id[0];
    assert HealthyMealPrep.id[0] != ComfortFoodClassics.id[0];
  }

  /** `catalogue.filter(t => t.type === type)`: exactly the templates of type
      `t`, in catalogue order. */
  function FilterByType(catalogue: seq<CookbookTemplate>, t: CookbookType): (r: seq<CookbookTemplate>)
    ensures IsSubseq(r, catalogue)
    ensures forall tpl :: tpl in r <==> tpl in catalogue && tpl.cookbookType == t
  {
    var p := (tpl: CookbookTemplate) => tpl.cookbookType == t;
    FilterSpec(catalogue, p);
    forall tpl ensures tpl in Filter(catalogue, p) <==> tpl in catalogue && p(tpl) {
      FilterMembership(catalogue, p, tpl);
    }
    Filter(catalogue, p)
  }

  /** `catalogue.filter(t => t.popular)`: exactly the popular templates, in catalogue order. */
  function FilterPopular(catalogue: seq<CookbookTemplate>): (r: seq<CookbookTemplate>)
    ensures IsSubseq(r, catalogue)
    ensures forall tpl :: tpl in r <==> tpl in catalogue && tpl.popular
  {
    var p := (tpl: CookbookTemplate) => tpl.popular;
    FilterSpec(catalogue, p);
    forall tpl ensures tpl in Filter(catalogue, p) <==> tpl in catalogue && p(tpl) {
      FilterMembership(catalogue, p, tpl);
    }
    Filter(catalogue, p)
  }

  /** `catalogue.filter(t => !t.isPremium)`: exactly the free templates, in catalogue order. */
  function FilterFree(catalogue: seq<CookbookTemplate>): (r: seq<CookbookTemplate>)
    ensures IsSubseq(r, catalogue)
    ensures forall tpl :: tpl in r <==> tpl in catalogue && !tpl.isPremium
  {
    var p := (tpl: CookbookTemplate) => !tpl.isPremium;
    FilterSpec(catalogue, p);
    forall tpl ensures tpl in Filter(catalogue, p) <==> tpl in catalogue && p(tpl) {
      FilterMembership(catalogue, p, tpl);
    }
    Filter(catalogue, p)
  }

  /** `FilterByType` keeps every template of type `t` exactly as often as the
      catalogue holds it, and no other template. */
  lemma FilterByTypeCounts(catalogue: seq<CookbookTemplate>, t: CookbookType)
    ensures forall tpl ::
      multiset(FilterByType(catalogue, t))[tpl] == if tpl.cookbookType == t then multiset(catalogue)[tpl] else 0
  {
    FilterSpec(catalogue, (tpl: CookbookTemplate) => tpl.cookbookType == t);
  }

  /** `FilterPopular` keeps every popular template exactly as often as the
      catalogue holds it, and no other template. */
  lemma FilterPopularCounts(catalogue: seq<CookbookTemplate>)
    ensures forall tpl ::
      multiset(FilterPopular(catalogue))[tpl] == if tpl.popular then multiset(catalogue)[tpl] else 0
  {
    FilterSpec(catalogue, (tpl: CookbookTemplate) => tpl.popular);
  }

  /** `FilterFree` keeps every non-premium template exactly as often as the
      catalogue holds it, and no other template. */
  lemma FilterFreeCounts(catalogue: seq<CookbookTemplate>)
    ensures forall tpl ::
      multiset(FilterFree(catalogue))[tpl] == if !tpl.isPremium then multiset(catalogue)[tpl] else 0
  {
    FilterSpec(catalogue, (tpl: CookbookTemplate) => !tpl.isPremium);
  }

  /** `getTemplatesByType(t)`. */
  function TemplatesByType(t: CookbookType): (r: seq<CookbookTemplate>)
    ensures IsSubseq(r, AllTemplates())
    ensures forall tpl :: tpl in r <==> tpl in AllTemplates() && tpl.cookbookType == t
  {
    FilterByType(AllTemplates(), t)
  }

  /** `getPopularTemplates()`. */
  function PopularTemplates(): (r: seq<CookbookTemplate>)
    ensures IsSubseq(r, AllTemplates())
    ensures forall tpl :: tpl in r <==> tpl in AllTemplates() && tpl.popular
  {
    FilterPopular(AllTemplates())
  }

  /** `getFreeTemplates()`. */
  function FreeTemplates(): (r: seq<CookbookTemplate>)
    ensures IsSubseq(r, AllTemplates())
    ensures forall tpl :: tpl in r <==> tpl in AllTemplates() && !tpl.isPremium
  {
    FilterFree(AllTemplates())
  }

  /** On the shipped data every template is popular and free, so both queries
      return the whole catalogue in order. */
  lemma ShippedPopularAndFree()
    ensures PopularTemplates() == AllTemplates()
    ensures FreeTemplates() == AllTemplates()
  {
    var s := AllTemplates();
    assert forall i :: 0 <= i < |s| ==> s[i].popular && !s[i].isPremium;
    FilterKeepsAll(s, (tpl: CookbookTemplate) => tpl.popular);
    FilterKeepsAll(s, (tpl: CookbookTemplate) => !tpl.isPremium);
  }

  /** On the shipped data: the two recipe collections (in catalogue order),
      the one meal plan, and nothing for the other five types. */
  lemma ShippedTemplatesByType(t: CookbookType)
    ensures t == RecipeCollection ==> TemplatesByType(t) == [WeeknightDinners, ComfortFoodClassics]
    ensures t == MealPlan ==> TemplatesByType(t) == [HealthyMealPrep]
    ensures t != RecipeCollection && t != MealPlan ==> TemplatesByType(t) == []
  {
    FilterOfThree(AllTemplates(), (tpl: CookbookTemplate) => tpl.cookbookType == t);
  }
}
