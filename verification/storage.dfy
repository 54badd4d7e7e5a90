/**
 * The persistent store: four local-storage slots (receipts, budgets, settings, the insight snapshot),
 * each read whole, changed and written back whole. A slot holds what `JSON.parse` gives back for it;
 * serialisation is taken as the identity. A write (`setItem`) either succeeds completely or fails
 * (the quota is full) and leaves the slot as it was; the `accepted` parameters say which happens.
 * The clock (`now`, in milliseconds) and the freshly generated receipt id are parameters.
 */
module Storage {
  import opened Basics
  import opened Json
  import opened Constants
  import opened Sequences

  const HOUR_MS: int := 1000 * 60 * 60

  /** Insights older than this many milliseconds are stale. */
  const INSIGHTS_MAX_AGE_MS: int := 24 * HOUR_MS

  /** `DEFAULT_BUDGETS` as a stored record. */
  function DefaultBudgetRecord(): (b: Record)
    ensures b.Keys == DEFAULT_BUDGETS.Keys
    ensures forall c :: c in b ==> b[c] == Num(DEFAULT_BUDGETS[c])
  {
    map c | c in DEFAULT_BUDGETS :: Num(DEFAULT_BUDGETS[c])
  }

  /** The default table has one positive amount per category tag and no other entry. */
  lemma DefaultBudgetRecordCoversCategories()
    ensures DefaultBudgetRecord().Keys == CategoryValues()
    ensures forall c :: c in DefaultBudgetRecord() ==> DefaultBudgetRecord()[c].Num? && DefaultBudgetRecord()[c].n > 0.0
  {
    DefaultBudgetsCoverCategories();
  }

  /** The settings used while none are stored. */
  const DEFAULT_SETTINGS: Record := map["currency" := Str("USD"), "theme" := Str("dark"), "notifications" := Bool(true)]

  /** `r.id === id`. */
  predicate HasId(r: Record, id: string) {
    Field(r, "id") == Str(id)
  }

  /** `receipts.findIndex(r => r.id === id)`: the first index with that id, or -1. */
  function FindIndex(rs: seq<Record>, id: string): (i: int)
    ensures -1 <= i < |rs|
    ensures i >= 0 ==> HasId(rs[i], id) && forall j :: 0 <= j < i ==> !HasId(rs[j], id)
    ensures i == -1 <==> forall j :: 0 <= j < |rs| ==> !HasId(rs[j], id)
  {
    if rs == [] then -1
    else if HasId(rs[0], id) then 0
    else
      var k := FindIndex(rs[1..], id);
      if k == -1 then -1 else k + 1
  }

  /** The predicate `deleteReceipt` filters with: `r.id !== id`. */
  function NotId(id: string): Record -> bool {
    (r: Record) => !HasId(r, id)
  }

  /**
   * The record `saveReceipt` stores: the receipt with `id` and `createdAt` filled in when they are
   * falsy, and `updatedAt` set to now.
   */
  function Stamped(receipt: Record, now: int, generatedId: string): (r: Record)
    ensures r.Keys == receipt.Keys + {"id", "createdAt", "updatedAt"}
    ensures Truthy(Field(receipt, "id")) ==> r["id"] == receipt["id"]
    ensures !Truthy(Field(receipt, "id")) ==> r["id"] == Str(generatedId)
    ensures Truthy(Field(receipt, "createdAt")) ==> r["createdAt"] == receipt["createdAt"]
    ensures !Truthy(Field(receipt, "createdAt")) ==> r["createdAt"] == Stamp(now)
    ensures r["updatedAt"] == Stamp(now)
    ensures forall k :: k in receipt && k !in {"id", "createdAt", "updatedAt"} ==> r[k] == receipt[k]
  {
    receipt["id" := Or(Field(receipt, "id"), Str(generatedId))]
           ["createdAt" := Or(Field(receipt, "createdAt"), Stamp(now))]
           ["updatedAt" := Stamp(now)]
  }

  /** `{ ...current, ...updates, updatedAt: now }`: a shallow merge in which `updates` wins. */
  function Merged(current: Record, updates: Record, now: int): (r: Record)
    ensures r.Keys == current.Keys + updates.Keys + {"updatedAt"}
    ensures r["updatedAt"] == Stamp(now)
    ensures forall k :: k in updates && k != "updatedAt" ==> r[k] == updates[k]
    ensures forall k :: k in current && k !in updates && k != "updatedAt" ==> r[k] == current[k]
  {
    (current + updates)["updatedAt" := Stamp(now)]
  }

  /** An import bundle; `None` for a property that is missing or falsy. */
  datatype Backup = Backup(
    receipts: Option<seq<Record>>,
    budgets: Option<Record>,
    settings: Option<Record>,
    insights: Option<Record>)

  /** What `exportData` returns. */
  datatype Export = Export(
    receipts: seq<Record>,
    budgets: Record,
    settings: Record,
    insights: Option<Record>,
    exportDate: int)

  /** Which slots an import bundle writes, in the order they are written. */
  function Present(b: Backup): seq<bool> {
    [b.receipts.Some?, b.budgets.Some?, b.settings.Some?, b.insights.Some?]
  }

  function CountTrue(bs: seq<bool>): (n: nat)
    ensures n <= |bs|
  {
    if bs == [] then 0 else CountTrue(bs[..|bs| - 1]) + (if bs[|bs| - 1] then 1 else 0)
  }

  function Bit(b: bool): nat {
    if b then 1 else 0
  }

  /** The number of present slots among the first one, two, three and four. */
  lemma CountPresent(b: Backup)
    ensures var p := Present(b);
      && CountTrue(p[..0]) == 0
      && CountTrue(p[..1]) == Bit(p[0])
      && CountTrue(p[..2]) == Bit(p[0]) + Bit(p[1])
      && CountTrue(p[..3]) == Bit(p[0]) + Bit(p[1]) + Bit(p[2])
      && CountTrue(p) == Bit(p[0]) + Bit(p[1]) + Bit(p[2]) + Bit(p[3])
      && p[..4] == p
  {
    var p := Present(b);
    assert p[..1][..0] == p[..0];
    assert p[..2][..1] == p[..1];
    assert p[..3][..2] == p[..2];
    assert p[..3] == p[..|p| - 1];
  }

  /**
   * Slot `k` of the bundle gets written: it is present, and the quota still takes it, `allowed`
   * being the number of writes that succeed before the first one fails.
   */
  predicate Written(b: Backup, k: nat, allowed: nat)
    requires k < 4
  {
    Present(b)[k] && CountTrue(Present(b)[..k + 1]) <= allowed
  }

  class Store {
    /** `smartreceipt_receipts`; `None` while the key is absent. */
    var receipts: Option<seq<Record>>
    /** `smartreceipt_budgets`. */
    var budgets: Option<Record>
    /** `smartreceipt_settings`. */
    var settings: Option<Record>
    /** `smartreceipt_insights`. */
    var insights: Option<Record>

    /** An empty store. */
    constructor ()
      ensures receipts == None && budgets == None && settings == None && insights == None
    {
      receipts := None;
      budgets := None;
      settings := None;
      insights := None;
    }

    // ------------------------------------------------------------ receipts

    /** `getReceipts`: the stored list, or the empty list when there is none. */
    function GetReceipts(): (rs: seq<Record>)
      reads this
      ensures receipts.None? ==> rs == []
      ensures receipts.Some? ==> rs == receipts.value
    {
      if receipts.Some? then receipts.value else []
    }

    /** `getReceiptById`: the first receipt with the id, or null. */
    function GetReceiptById(id: string): (r: Option<Record>)
      reads this
      ensures r.None? <==> forall j :: 0 <= j < |GetReceipts()| ==> !HasId(GetReceipts()[j], id)
      ensures r.Some? ==> r.value == GetReceipts()[FindIndex(GetReceipts(), id)] && HasId(r.value, id)
    {
      var i := FindIndex(GetReceipts(), id);
      if i == -1 then None else Some(GetReceipts()[i])
    }

    /**
     * `saveReceipt`: the stamped receipt goes in front of the list; the older entries follow, unchanged
     * and in order. No check is made that the id is new.
     */
    method SaveReceipt(receipt: Record, now: int, generatedId: string, accepted: bool) returns (saved: Option<Record>)
      modifies this
      ensures accepted ==> saved == Some(Stamped(receipt, now, generatedId))
      ensures accepted ==> receipts == Some([saved.value] + old(GetReceipts()))
      ensures accepted && saved.value["id"].Str? ==> GetReceiptById(saved.value["id"].s) == saved
      ensures !accepted ==> saved == None && receipts == old(receipts)
      ensures budgets == old(budgets) && settings == old(settings) && insights == old(insights)
    {
      var list := GetReceipts();
      var newReceipt := Stamped(receipt, now, generatedId);
      list := [newReceipt] + list;
      if !accepted {
        return None;
      }
      receipts := Some(list);
      saved := Some(newReceipt);
    }

    /**
     * `updateReceipt`: the first receipt with the id is replaced by its merge with `updates`; every other
     * entry, the length and the order stay as they were. An unknown id writes nothing.
     */
    method UpdateReceipt(id: string, updates: Record, now: int, accepted: bool) returns (updated: Option<Record>)
      modifies this
      ensures FindIndex(old(GetReceipts()), id) == -1 ==> updated == None && receipts == old(receipts)
      ensures !accepted ==> updated == None && receipts == old(receipts)
      ensures accepted && FindIndex(old(GetReceipts()), id) >= 0 ==>
                var i := FindIndex(old(GetReceipts()), id);
                && updated == Some(Merged(old(GetReceipts())[i], updates, now))
                && receipts == Some(old(GetReceipts())[i := updated.value])
      ensures updated.Some? && "id" !in updates ==> GetReceiptById(id) == updated
      ensures budgets == old(budgets) && settings == old(settings) && insights == old(insights)
    {
      var list := GetReceipts();
      var index := FindIndex(list, id);
      if index == -1 {
        return None;
      }
      list := list[index := Merged(list[index], updates, now)];
      if !accepted {
        return None;
      }
      receipts := Some(list);
      updated := Some(list[index]);
      if "id" !in updates {
        assert list[..index] == old(GetReceipts())[..index];
        assert FindIndex(GetReceipts(), id) == index;
      }
    }

    /**
     * `deleteReceipt`: keeps the receipts with another id, in order, and reports success even when
     * nothing had the id (the list is then unchanged).
     */
    method DeleteReceipt(id: string, accepted: bool) returns (ok: bool)
      modifies this
      ensures ok == accepted
      ensures accepted ==> receipts == Some(Filter(old(GetReceipts()), NotId(id)))
      ensures accepted ==> IsSubsequence(GetReceipts(), old(GetReceipts()))
      ensures accepted ==> forall r :: r in GetReceipts() <==> r in old(GetReceipts()) && !HasId(r, id)
      ensures accepted && (forall r :: r in old(GetReceipts()) ==> !HasId(r, id)) ==> GetReceipts() == old(GetReceipts())
      ensures !accepted ==> receipts == old(receipts)
      ensures budgets == old(budgets) && settings == old(settings) && insights == old(insights)
    {
      var list := GetReceipts();
      var filtered := Filter(list, NotId(id));
      if !accepted {
        return false;
      }
      FilterIsSubsequence(list, NotId(id));
      FilterMembers(list, NotId(id));
      if forall r :: r in list ==> !HasId(r, id) {
        FilterAll(list, NotId(id));
      }
      receipts := Some(filtered);
      ok := true;
    }

    /** `clearReceipts`: removes the slot, after which the list reads as empty. */
    method ClearReceipts() returns (ok: bool)
      modifies this
      ensures ok && receipts == None && GetReceipts() == []
      ensures budgets == old(budgets) && settings == old(settings) && insights == old(insights)
    {
      receipts := None;
      ok := true;
    }

    // ------------------------------------------------------------ budgets

    /** `getBudgets`: the stored table, or the default table while none is stored. */
    function GetBudgets(): (b: Record)
      reads this
      ensures budgets.None? ==> b == DefaultBudgetRecord()
      ensures budgets.Some? ==> b == budgets.value
    {
      if budgets.Some? then budgets.value else DefaultBudgetRecord()
    }

    /** `saveBudgets`: replaces the whole table. */
    method SaveBudgets(table: Record, accepted: bool) returns (ok: bool)
      modifies this
      ensures ok == accepted
      ensures budgets == if accepted then Some(table) else old(budgets)
      ensures receipts == old(receipts) && settings == old(settings) && insights == old(insights)
    {
      if !accepted {
        return false;
      }
      budgets := Some(table);
      ok := true;
    }

    /**
     * `updateCategoryBudget`: sets one category to `Number(amount)` (a non-numeric amount is NaN and is
     * stored as null) and leaves every other category as `getBudgets` returned it.
     */
    method UpdateCategoryBudget(category: string, amount: Value, accepted: bool) returns (ok: bool)
      modifies this
      ensures ok == accepted
      ensures accepted ==> budgets == Some(old(GetBudgets())[category := NumberToJson(ToNumber(amount))])
      ensures accepted ==> forall c :: c != category ==> Field(GetBudgets(), c) == Field(old(GetBudgets()), c)
      ensures !accepted ==> budgets == old(budgets)
      ensures receipts == old(receipts) && settings == old(settings) && insights == old(insights)
    {
      var table := GetBudgets();
      table := table[category := NumberToJson(ToNumber(amount))];
      if !accepted {
        return false;
      }
      budgets := Some(table);
      ok := true;
    }

    /** `resetBudgets`: stores the default table. */
    method ResetBudgets(accepted: bool) returns (ok: bool)
      modifies this
      ensures ok == accepted
      ensures accepted ==> budgets == Some(DefaultBudgetRecord()) && GetBudgets() == DefaultBudgetRecord()
      ensures !accepted ==> budgets == old(budgets)
      ensures receipts == old(receipts) && settings == old(settings) && insights == old(insights)
    {
      if !accepted {
        return false;
      }
      budgets := Some(DefaultBudgetRecord());
      ok := true;
    }

    // ------------------------------------------------------------ settings

    /** `getSettings`: the stored settings, or the defaults while none are stored. */
    function GetSettings(): (s: Record)
      reads this
      ensures settings.None? ==> s == DEFAULT_SETTINGS
      ensures settings.Some? ==> s == settings.value
    {
      if settings.Some? then settings.value else DEFAULT_SETTINGS
    }

    /** `saveSettings`: a shallow merge of `changes` over the current settings. */
    method SaveSettings(changes: Record, accepted: bool) returns (ok: bool)
      modifies this
      ensures ok == accepted
      ensures accepted ==> settings == Some(old(GetSettings()) + changes)
      ensures accepted ==> forall k :: k !in changes ==> Field(GetSettings(), k) == Field(old(GetSettings()), k)
      ensures accepted ==> forall k :: k in changes ==> GetSettings()[k] == changes[k]
      ensures !accepted ==> settings == old(settings)
      ensures receipts == old(receipts) && budgets == old(budgets) && insights == old(insights)
    {
      var current := GetSettings();
      var updated := current + changes;
      if !accepted {
        return false;
      }
      settings := Some(updated);
      ok := true;
    }

    /** `updateSetting`: sets one key of the current settings. */
    method UpdateSetting(key: string, value: Value, accepted: bool) returns (ok: bool)
      modifies this
      ensures ok == accepted
      ensures accepted ==> settings == Some(old(GetSettings())[key := value])
      ensures accepted ==> forall k :: k != key ==> Field(GetSettings(), k) == Field(old(GetSettings()), k)
      ensures !accepted ==> settings == old(settings)
      ensures receipts == old(receipts) && budgets == old(budgets) && insights == old(insights)
    {
      var current := GetSettings();
      current := current[key := value];
      if !accepted {
        return false;
      }
      settings := Some(current);
      ok := true;
    }

    // ------------------------------------------------------------ insights

    /**
     * Whether the stored snapshot is more than 24 hours old at `now`. A `createdAt` that does not read
     * as a date gives NaN, and NaN is never greater than 24: such a snapshot never goes stale.
     */
    predicate Stale(snapshot: Record, now: int) {
      var t := TimeOf(Field(snapshot, "createdAt"));
      t.Some? && now - t.value > INSIGHTS_MAX_AGE_MS
    }

    /** `getInsights`: the snapshot while it is at most 24 hours old; a stale one is removed. */
    method GetInsights(now: int) returns (snapshot: Option<Record>)
      modifies this
      ensures old(insights).None? ==> snapshot == None && insights == None
      ensures old(insights).Some? && !Stale(old(insights).value, now) ==>
                snapshot == old(insights) && insights == old(insights)
      ensures old(insights).Some? && Stale(old(insights).value, now) ==> snapshot == None && insights == None
      ensures snapshot.None? ==> insights == None
      ensures receipts == old(receipts) && budgets == old(budgets) && settings == old(settings)
    {
      if insights.None? {
        return None;
      }
      var data := insights.value;
      var createdAt := TimeOf(Field(data, "createdAt"));
      if createdAt.Some? && now - createdAt.value > INSIGHTS_MAX_AGE_MS {
        var _ := ClearInsights();
        return None;
      }
      snapshot := Some(data);
    }

    /** `saveInsights`: stores the snapshot with `createdAt` set to now, whatever it held before. */
    method SaveInsights(snapshot: Record, now: int, accepted: bool) returns (ok: bool)
      modifies this
      ensures ok == accepted
      ensures accepted ==> insights == Some(snapshot["createdAt" := Stamp(now)])
      ensures accepted ==> TimeOf(insights.value["createdAt"]) == Some(now)
      ensures accepted ==> forall k :: k != "createdAt" ==> Field(insights.value, k) == Field(snapshot, k)
      ensures !accepted ==> insights == old(insights)
      ensures receipts == old(receipts) && budgets == old(budgets) && settings == old(settings)
    {
      var dataToSave := snapshot["createdAt" := Stamp(now)];
      if !accepted {
        return false;
      }
      insights := Some(dataToSave);
      ok := true;
    }

    /** `clearInsights`: removes the slot. */
    method ClearInsights() returns (ok: bool)
      modifies this
      ensures ok && insights == None
      ensures receipts == old(receipts) && budgets == old(budgets) && settings == old(settings)
    {
      insights := None;
      ok := true;
    }

    // ------------------------------------------------------------ the whole store

    /** `localStorage.removeItem(key)`: a key that names no slot leaves everything as it is. */
    method RemoveItem(key: string)
      modifies this
      ensures receipts == if key == RECEIPTS_KEY then None else old(receipts)
      ensures budgets == if key == BUDGETS_KEY then None else old(budgets)
      ensures settings == if key == SETTINGS_KEY then None else old(settings)
      ensures insights == if key == INSIGHTS_KEY then None else old(insights)
    {
      StorageKeysDistinct();
      if key == RECEIPTS_KEY {
        receipts := None;
      } else if key == BUDGETS_KEY {
        budgets := None;
      } else if key == SETTINGS_KEY {
        settings := None;
      } else if key == INSIGHTS_KEY {
        insights := None;
      }
    }

    /** `clearAll`: removes every key of `STORAGE_KEYS`, one after the other. */
    method ClearAll() returns (ok: bool)
      modifies this
      ensures ok
      ensures receipts == None && budgets == None && settings == None && insights == None
      ensures GetReceipts() == [] && GetBudgets() == DefaultBudgetRecord() && GetSettings() == DEFAULT_SETTINGS
    {
      var i := 0;
      while i < |STORAGE_KEYS|
        invariant 0 <= i <= |STORAGE_KEYS|
        invariant RECEIPTS_KEY in STORAGE_KEYS[..i] ==> receipts == None
        invariant BUDGETS_KEY in STORAGE_KEYS[..i] ==> budgets == None
        invariant SETTINGS_KEY in STORAGE_KEYS[..i] ==> settings == None
        invariant INSIGHTS_KEY in STORAGE_KEYS[..i] ==> insights == None
      {
        RemoveItem(STORAGE_KEYS[i]);
        i := i + 1;
        assert STORAGE_KEYS[..i] == STORAGE_KEYS[..i - 1] + [STORAGE_KEYS[i - 1]];
      }
      assert STORAGE_KEYS[..i] == STORAGE_KEYS;
      ok := true;
    }

    /** `exportData`: every slot as its getter reads it (which may evict stale insights), stamped now. */
    method ExportData(now: int) returns (e: Export)
      modifies this
      ensures e.receipts == old(GetReceipts()) && e.budgets == old(GetBudgets()) && e.settings == old(GetSettings())
      ensures e.insights == (if old(insights).Some? && !Stale(old(insights).value, now) then old(insights) else None)
      ensures e.exportDate == now
      ensures insights == e.insights
      ensures receipts == old(receipts) && budgets == old(budgets) && settings == old(settings)
    {
      var rs := GetReceipts();
      var bs := GetBudgets();
      var ss := GetSettings();
      var ins := GetInsights(now);
      e := Export(rs, bs, ss, ins, now);
    }

    /**
     * `importData`: writes each present slot of the bundle in the order receipts, budgets, settings,
     * insights. `allowed` writes succeed; the next one fails, ending the import with the slots already
     * written left in place. A null bundle fails before any write.
     */
    method ImportData(data: Option<Backup>, allowed: nat) returns (ok: bool)
      modifies this
      ensures ok <==> data.Some? && CountTrue(Present(data.value)) <= allowed
      ensures receipts == if data.Some? && Written(data.value, 0, allowed) then data.value.receipts else old(receipts)
      ensures budgets == if data.Some? && Written(data.value, 1, allowed) then data.value.budgets else old(budgets)
      ensures settings == if data.Some? && Written(data.value, 2, allowed) then data.value.settings else old(settings)
      ensures insights == if data.Some? && Written(data.value, 3, allowed) then data.value.insights else old(insights)
    {
      if data.None? {
        return false;
      }
      var b := data.value;
      ghost var present := Present(b);
      CountPresent(b);
      var writes := 0;
      assert CountTrue(present[..0]) == 0;
      if b.receipts.Some? {
        if writes == allowed {
          return false;
        }
        receipts := b.receipts;
        writes := writes + 1;
      }
      assert writes == CountTrue(present[..1]);
      if b.budgets.Some? {
        if writes == allowed {
          return false;
        }
        budgets := b.budgets;
        writes := writes + 1;
      }
      assert writes == CountTrue(present[..2]);
      if b.settings.Some? {
        if writes == allowed {
          return false;
        }
        settings := b.settings;
        writes := writes + 1;
      }
      assert writes == CountTrue(present[..3]);
      if b.insights.Some? {
        if writes == allowed {
          return false;
        }
        insights := b.insights;
        writes := writes + 1;
      }
      assert writes == CountTrue(present);
      ok := true;
    }
  }

  /** An exported snapshot, imported into any store with room for it, reads back the same. */
  method ExportImportRoundTrip(source: Store, target: Store, now: int)
    requires source != target
    modifies source, target
    ensures target.GetReceipts() == old(source.GetReceipts())
    ensures target.GetBudgets() == old(source.GetBudgets())
    ensures target.GetSettings() == old(source.GetSettings())
  {
    var e := source.ExportData(now);
    var ok := target.ImportData(Some(Backup(Some(e.receipts), Some(e.budgets), Some(e.settings), e.insights)), 4);
  }

  /**
   * Saved insights are returned for a full day and are gone one millisecond later; once gone they stay
   * gone, whatever the clock reads next.
   */
  method InsightsLiveForADay(snapshot: Record, now: int, later: int)
    returns (atOneDay: Option<Record>, afterOneDay: Option<Record>, afterwards: Option<Record>)
    ensures atOneDay == Some(snapshot["createdAt" := Stamp(now)])
    ensures afterOneDay == None
    ensures afterwards == None
  {
    var store := new Store();
    var _ := store.SaveInsights(snapshot, now, true);
    atOneDay := store.GetInsights(now + INSIGHTS_MAX_AGE_MS);
    afterOneDay := store.GetInsights(now + INSIGHTS_MAX_AGE_MS + 1);
    afterwards := store.GetInsights(later);
  }

  /** With value semantics, an edit followed by a reset leaves the default amount in place. */
  method ResetRestoresDefault() returns (food: Value)
    ensures food == Num(500.0)
  {
    var store := new Store();
    var _ := store.UpdateCategoryBudget("food", Num(650.0), true);
    var _ := store.ResetBudgets(true);
    food := Field(store.GetBudgets(), "food");
  }

  // ------------------------------------------------------------ budgets, as the source shares them

  /** The module-level `DEFAULT_BUDGETS` object, which the source hands out and mutates. */
  class BudgetTable {
    var amounts: Record

    constructor ()
      ensures amounts == DefaultBudgetRecord()
    {
      amounts := DefaultBudgetRecord();
    }
  }

  /**
   * The budget slot as the source implements it: while nothing is stored, `getBudgets` returns the
   * shared default object itself, so `updateCategoryBudget` writes into it, and a later `resetBudgets`
   * stores the altered table.
   */
  class SharedDefaultsBudgets {
    var budgets: Option<Record>
    const defaults: BudgetTable

    constructor (defaults: BudgetTable)
      ensures budgets == None && this.defaults == defaults
    {
      budgets := None;
      this.defaults := defaults;
    }

    function GetBudgets(): Record
      reads this, defaults
    {
      if budgets.Some? then budgets.value else defaults.amounts
    }

    /** Writes into the shared object when nothing is stored, even if the write then fails. */
    method UpdateCategoryBudget(category: string, amount: Value, accepted: bool) returns (ok: bool)
      modifies this, defaults
      ensures old(budgets).None? ==> defaults.amounts == old(defaults.amounts)[category := NumberToJson(ToNumber(amount))]
      ensures old(budgets).Some? ==> defaults.amounts == old(defaults.amounts)
      ensures accepted ==> budgets == Some(old(GetBudgets())[category := NumberToJson(ToNumber(amount))])
      ensures !accepted ==> budgets == old(budgets)
      ensures ok == accepted
    {
      if budgets.None? {
        defaults.amounts := defaults.amounts[category := NumberToJson(ToNumber(amount))];
        if !accepted {
          return false;
        }
        budgets := Some(defaults.amounts);
      } else {
        var table := budgets.value[category := NumberToJson(ToNumber(amount))];
        if !accepted {
          return false;
        }
        budgets := Some(table);
      }
      ok := true;
    }

    /** Stores whatever the shared object holds now. */
    method ResetBudgets(accepted: bool) returns (ok: bool)
      modifies this
      ensures accepted ==> budgets == Some(defaults.amounts)
      ensures !accepted ==> budgets == old(budgets)
      ensures ok == accepted
    {
      if !accepted {
        return false;
      }
      budgets := Some(defaults.amounts);
      ok := true;
    }
  }

  /** On a fresh store, setting food to 650 and then resetting still reads 650, not the default 500. */
  method SharedDefaultsResetKeepsEdit() returns (food: Value)
    ensures food == Num(650.0)
  {
    var table := new BudgetTable();
    var slot := new SharedDefaultsBudgets(table);
    var _ := slot.UpdateCategoryBudget("food", Num(650.0), true);
    var _ := slot.ResetBudgets(true);
    food := Field(slot.GetBudgets(), "food");
  }
}
