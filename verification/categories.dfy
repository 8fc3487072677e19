/**
 * The expense category table of src/data/categories.ts and its two lookups:
 * a category by id, falling back to the last entry ('other'), and an icon
 * component by name, falling back to `HelpCircle`.
 */
module Categories {
  import opened Wrappers

  /** The icon components of `CATEGORY_ICONS`. */
  datatype Icon =
    | UtensilsCrossed | Home | Plane | Car | ShoppingBag | Gamepad2 | Heart | GraduationCap | Briefcase
    | Phone | Shirt | Gift | Coffee | Fuel | Zap | Droplets | Wifi | HelpCircle

  /** One entry of `EXPENSE_CATEGORIES`; `icon` is the name of an icon component. */
  datatype Category = Category(id: string, name: string, icon: string, color: string)

  const ExpenseCategories: seq<Category> := [
    Category("food", "Food & Dining", "UtensilsCrossed", "hsl(var(--primary))"),
    Category("rent", "Rent & Housing", "Home", "hsl(var(--secondary))"),
    Category("travel", "Travel", "Plane", "hsl(var(--accent))"),
    Category("transport", "Transportation", "Car", "hsl(var(--chart-1))"),
    Category("shopping", "Shopping", "ShoppingBag", "hsl(var(--chart-2))"),
    Category("entertainment", "Entertainment", "Gamepad2", "hsl(var(--chart-3))"),
    Category("healthcare", "Healthcare", "Heart", "hsl(var(--chart-4))"),
    Category("education", "Education", "GraduationCap", "hsl(var(--chart-5))"),
    Category("business", "Business", "Briefcase", "hsl(var(--primary))"),
    Category("phone", "Phone & Internet", "Phone", "hsl(var(--secondary))"),
    Category("clothing", "Clothing", "Shirt", "hsl(var(--accent))"),
    Category("gifts", "Gifts", "Gift", "hsl(var(--chart-1))"),
    Category("coffee", "Coffee & Bars", "Coffee", "hsl(var(--chart-2))"),
    Category("fuel", "Fuel", "Fuel", "hsl(var(--chart-3))"),
    Category("utilities", "Utilities", "Zap", "hsl(var(--chart-4))"),
    Category("water", "Water", "Droplets", "hsl(var(--chart-5))"),
    Category("internet", "Internet", "Wifi", "hsl(var(--primary))"),
    Category("other", "Other", "HelpCircle", "hsl(var(--muted-foreground))")
  ]

  /** `CATEGORY_ICONS`: icon name to component. */
  const CategoryIcons: map<string, Icon> := map[
    "UtensilsCrossed" := UtensilsCrossed, "Home" := Home, "Plane" := Plane, "Car" := Car,
    "ShoppingBag" := ShoppingBag, "Gamepad2" := Gamepad2, "Heart" := Heart,
    "GraduationCap" := GraduationCap, "Briefcase" := Briefcase, "Phone" := Phone, "Shirt" := Shirt,
    "Gift" := Gift, "Coffee" := Coffee, "Fuel" := Fuel, "Zap" := Zap, "Droplets" := Droplets,
    "Wifi" := Wifi, "HelpCircle" := HelpCircle
  ]

  /** `cats.find(cat => cat.id === id)` */
  function FindCategory(cats: seq<Category>, id: string): Option<Category>
  {
    if cats == [] then None
    else if cats[0].id == id then Some(cats[0])
    else FindCategory(cats[1..], id)
  }

  /** `getCategoryById`: the first entry with that id, or the last entry of the table. */
  function GetCategoryById(id: string): (c: Category)
    ensures c in ExpenseCategories
  {
    match FindCategory(ExpenseCategories, id)
    case Some(c) => FindCategoryIn(ExpenseCategories, id); c
    case None => ExpenseCategories[|ExpenseCategories| - 1]
  }

  /**
   * `getCategoryIcon`: the icon with that name, or `HelpCircle`. Since no two
   * names share an icon, `HelpCircle` comes back exactly for an unknown name
   * or for the name "HelpCircle" itself.
   */
  function GetCategoryIcon(iconName: string): (icon: Icon)
    ensures icon in CategoryIcons.Values
    ensures icon == HelpCircle <==> iconName !in CategoryIcons || iconName == "HelpCircle"
  {
    if iconName in CategoryIcons then CategoryIcons[iconName]
    else assert CategoryIcons["HelpCircle"] == HelpCircle; HelpCircle
  }

  /**
   * The search finds an entry with the id when there is one, and that entry
   * is the first with it.
   */
  lemma {:induction false} FindCategoryIn(cats: seq<Category>, id: string)
    ensures FindCategory(cats, id).None? <==> forall k :: 0 <= k < |cats| ==> cats[k].id != id
    ensures FindCategory(cats, id).Some? ==>
      (exists k :: 0 <= k < |cats| && cats[k] == FindCategory(cats, id).value
         && forall j :: 0 <= j < k ==> cats[j].id != id)
    ensures FindCategory(cats, id).Some? ==> FindCategory(cats, id).value.id == id
  {
    if cats != [] && cats[0].id != id {
      FindCategoryIn(cats[1..], id);
      forall k | 0 < k < |cats| ensures cats[k] == cats[1..][k - 1] {
      }
      if FindCategory(cats, id).Some? {
        var k :| 0 <= k < |cats[1..]| && cats[1..][k] == FindCategory(cats, id).value
          && forall j :: 0 <= j < k ==> cats[1..][j].id != id;
        assert cats[k + 1] == FindCategory(cats, id).value;
        forall j | 0 <= j < k + 1 ensures cats[j].id != id {
          if j > 0 {
            assert cats[j] == cats[1..][j - 1];
          }
        }
      }
    }
  }

  /** The ids of the table are distinct. */
  lemma DistinctCategoryIds()
    ensures forall i, j :: 0 <= i < j < |ExpenseCategories| ==> ExpenseCategories[i].id != ExpenseCategories[j].id
  {
  }

  /** Every id of the table resolves to its own entry. */
  lemma EveryIdResolves(k: nat)
    requires k < |ExpenseCategories|
    ensures GetCategoryById(ExpenseCategories[k].id) == ExpenseCategories[k]
  {
    var id := ExpenseCategories[k].id;
    FindCategoryIn(ExpenseCategories, id);
    DistinctCategoryIds();
  }

  /** An id the table does not hold resolves to 'other'. */
  lemma UnknownIdIsOther(id: string)
    requires forall k :: 0 <= k < |ExpenseCategories| ==> ExpenseCategories[k].id != id
    ensures GetCategoryById(id).id == "other" && GetCategoryById(id).icon == "HelpCircle"
  {
    FindCategoryIn(ExpenseCategories, id);
  }

  /**
   * Every category names an icon that `getCategoryIcon` knows, and only the
   * 'other' category gets `HelpCircle`.
   */
  lemma CategoryIconsKnown(k: nat)
    requires k < |ExpenseCategories|
    ensures ExpenseCategories[k].icon in CategoryIcons
    ensures GetCategoryIcon(ExpenseCategories[k].icon) == HelpCircle <==> ExpenseCategories[k].id == "other"
  {
  }
}
