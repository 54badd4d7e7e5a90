/** The domain tables: the closed category set, default monthly budgets, alert thresholds, storage keys. */
module Constants {

  /** One spending category: its tag, display label (`label`, a reserved word here) and chart colour. */
  datatype Category = Category(value: string, labelText: string, color: string)

  const CATEGORIES: seq<Category> := [
    Category("food", "Food & Dining", "#FF6B6B"),
    Category("transport", "Transportation", "#4ECDC4"),
    Category("shopping", "Shopping", "#45B7D1"),
    Category("entertainment", "Entertainment", "#FFA07A"),
    Category("healthcare", "Healthcare", "#98D8C8"),
    Category("utilities", "Utilities & Bills", "#F7DC6F"),
    Category("education", "Education", "#BB8FCE"),
    Category("other", "Other", "#85C1E2")
  ]

  /** The tag that missing or empty categories fall back to. */
  const OTHER: string := "other"

  /** Default monthly budget per category tag. */
  const DEFAULT_BUDGETS: map<string, real> := map[
    "food" := 500.0,
    "transport" := 200.0,
    "shopping" := 300.0,
    "entertainment" := 150.0,
    "healthcare" := 200.0,
    "utilities" := 150.0,
    "education" := 100.0,
    "other" := 100.0
  ]

  /** Budget alert thresholds, as fractions of the budget. */
  datatype Thresholds = Thresholds(warning: real, danger: real, critical: real)

  const BUDGET_THRESHOLDS: Thresholds := Thresholds(0.8, 1.0, 1.2)

  /** The local-storage keys of the four slots. */
  const RECEIPTS_KEY: string := "smartreceipt_receipts"
  const BUDGETS_KEY: string := "smartreceipt_budgets"
  const SETTINGS_KEY: string := "smartreceipt_settings"
  const INSIGHTS_KEY: string := "smartreceipt_insights"

  /** `Object.values(STORAGE_KEYS)`, in declaration order. */
  const STORAGE_KEYS: seq<string> := [RECEIPTS_KEY, BUDGETS_KEY, SETTINGS_KEY, INSIGHTS_KEY]

  function CategoryValues(): set<string> {
    set c | c in CATEGORIES :: c.value
  }

  /** There are exactly eight categories, their tags are pairwise distinct, and `other` is one of them. */
  lemma CategoriesAreEightDistinct()
    ensures |CATEGORIES| == 8
    ensures forall i, j :: 0 <= i < j < |CATEGORIES| ==> CATEGORIES[i].value != CATEGORIES[j].value
    ensures OTHER in CategoryValues()
  {
    assert CATEGORIES[7].value == OTHER;
  }

  /** The category tags, written out. */
  const CATEGORY_TAGS: set<string> :=
    {"food", "transport", "shopping", "entertainment", "healthcare", "utilities", "education", "other"}

  lemma CategoryValuesWithinTags()
    ensures CategoryValues() <= CATEGORY_TAGS
  {
    forall c | c in CategoryValues() ensures c in CATEGORY_TAGS {
      var i :| 0 <= i < |CATEGORIES| && CATEGORIES[i].value == c;
    }
  }

  lemma TagsWithinCategoryValues()
    ensures CATEGORY_TAGS <= CategoryValues()
  {
    forall i | 0 <= i < |CATEGORIES| ensures CATEGORIES[i].value in CategoryValues() {
      assert CATEGORIES[i] in CATEGORIES;
    }
    assert CATEGORY_TAGS == {CATEGORIES[0].value, CATEGORIES[1].value, CATEGORIES[2].value, CATEGORIES[3].value,
                             CATEGORIES[4].value, CATEGORIES[5].value, CATEGORIES[6].value, CATEGORIES[7].value};
  }

  lemma CategoryValuesAreTags()
    ensures CategoryValues() == CATEGORY_TAGS
  {
    CategoryValuesWithinTags();
    TagsWithinCategoryValues();
  }

  lemma DefaultBudgetKeysAreTags()
    ensures DEFAULT_BUDGETS.Keys == CATEGORY_TAGS
  {
    assert forall c :: c in DEFAULT_BUDGETS ==> c in CATEGORY_TAGS;
    assert forall c :: c in CATEGORY_TAGS ==> c in DEFAULT_BUDGETS;
  }

  lemma DefaultBudgetsPositive()
    ensures forall c :: c in DEFAULT_BUDGETS ==> DEFAULT_BUDGETS[c] > 0.0
  {
  }

  /** The default budget table has one positive amount for each category tag and no other keys. */
  lemma DefaultBudgetsCoverCategories()
    ensures DEFAULT_BUDGETS.Keys == CategoryValues()
    ensures forall c :: c in DEFAULT_BUDGETS ==> DEFAULT_BUDGETS[c] > 0.0
  {
    CategoryValuesAreTags();
    DefaultBudgetKeysAreTags();
    DefaultBudgetsPositive();
  }

  /** The thresholds rise strictly: warning below danger below critical, all positive. */
  lemma ThresholdsIncrease()
    ensures 0.0 < BUDGET_THRESHOLDS.warning < BUDGET_THRESHOLDS.danger < BUDGET_THRESHOLDS.critical
  {
  }

  /** The four storage keys are pairwise distinct, so no slot can overwrite another. */
  lemma StorageKeysDistinct()
    ensures |STORAGE_KEYS| == 4
    ensures forall i, j :: 0 <= i < j < |STORAGE_KEYS| ==> STORAGE_KEYS[i] != STORAGE_KEYS[j]
  {
  }
}
