/**
 * The trust boundary between the extraction/analysis service and the store: the cleaning of the
 * service's text reply, the required-field check and coercions that turn an untrusted parsed object
 * into a receipt, and the defaults applied to an insight document. The network calls around them are
 * not part of this model.
 */
module Gemini {
  import opened Basics
  import opened Text
  import opened Json
  import opened Constants

  /** Why a reply is refused. */
  datatype AnalysisError =
    | NoReceipts       // "No receipts to analyze"
    | IncompleteData   // "Incomplete receipt data. Missing required fields."
    | PropertyOfNull   // the TypeError JavaScript raises when reading a property of null or undefined

  // ---------------------------------------------------------------- cleaning the reply text

  const JSON_FENCE: string := "```json"
  const FENCE: string := "```"

  /** The string without its leading white space (what `\s*` consumes after a match). */
  function SkipSpaces(s: string): (r: string)
    ensures |r| <= |s|
  {
    s[LeadingSpaces(s)..]
  }

  /**
   * `s.replace(/<marker>\s*\/g, '')`: scanning left to right, every occurrence of `marker` is removed
   * together with the white space that follows it; scanning resumes after the removed text.
   */
  function RemoveMarker(s: string, marker: string): (r: string)
    requires marker != []
    decreases |s|
  {
    if s == [] then []
    else if StartsWith(s, marker) then RemoveMarker(SkipSpaces(s[|marker|..]), marker)
    else [s[0]] + RemoveMarker(s[1..], marker)
  }

  /** The reply text as it is handed to the JSON parser: trimmed, fences removed, trimmed again. */
  function CleanModelText(text: string): (r: string)
    ensures !Contains(r, FENCE)
    ensures r == [] || (!IsSpace(r[0]) && !IsSpace(r[|r| - 1]))
  {
    var u := RemoveMarker(Trim(text), JSON_FENCE);
    NoFenceAfterRemoval(u);
    TrimKeepsNoFence(RemoveMarker(u, FENCE));
    Trim(RemoveMarker(u, FENCE))
  }

  /** If the fence-free output starts with a backquote, so did the input. */
  lemma FirstBackquote(u: string)
    requires RemoveMarker(u, FENCE) != [] && RemoveMarker(u, FENCE)[0] == '`'
    ensures u != [] && u[0] == '`'
  {
  }

  /** If the output starts with two backquotes, so did the input. */
  lemma LeadingBackquotes(u: string)
    requires |RemoveMarker(u, FENCE)| >= 2 && RemoveMarker(u, FENCE)[..2] == "``"
    ensures |u| >= 2 && u[..2] == "``"
  {
    if !StartsWith(u, FENCE) {
      var r := RemoveMarker(u, FENCE);
      assert r == [u[0]] + RemoveMarker(u[1..], FENCE);
      assert RemoveMarker(u[1..], FENCE)[0] == r[1] == '`';
      FirstBackquote(u[1..]);
    }
  }

  /**
   * Removing every fence leaves no fence: a backquote never precedes a removed fence (the scan would
   * have matched one position earlier), so no new fence can form across a removal.
   */
  lemma {:induction false} NoFenceAfterRemoval(u: string)
    ensures !Contains(RemoveMarker(u, FENCE), FENCE)
    decreases |u|
  {
    if u == [] {
    } else if StartsWith(u, FENCE) {
      NoFenceAfterRemoval(SkipSpaces(u[|FENCE|..]));
    } else {
      var rest := RemoveMarker(u[1..], FENCE);
      NoFenceAfterRemoval(u[1..]);
      var r := [u[0]] + rest;
      assert r == RemoveMarker(u, FENCE);
      ConsFence(u[0], rest);
      if Contains(r, FENCE) {
        LeadingBackquotes(u[1..]);
        assert false;
      }
    }
  }

  /** A character put in front of fence-free text can only form a fence as its first backquote. */
  lemma ConsFence(c: char, rest: string)
    requires !Contains(rest, FENCE)
    ensures Contains([c] + rest, FENCE) ==> c == '`' && |rest| >= 2 && rest[..2] == "``"
  {
    var r := [c] + rest;
    if Contains(r, FENCE) {
      var i :| 0 <= i <= |r| && OccursAt(r, FENCE, i);
      if i > 0 {
        assert OccursAt(rest, FENCE, i - 1) by {
          assert rest[i - 1..i - 1 + |FENCE|] == r[i..i + |FENCE|];
        }
        assert false;
      } else {
        assert r[0..3] == FENCE;
        assert c == r[0] == FENCE[0];
        assert rest[..2] == r[1..3];
      }
    }
  }

  /** Trimming cannot create a fence. */
  lemma TrimKeepsNoFence(s: string)
    requires !Contains(s, FENCE)
    ensures !Contains(Trim(s), FENCE)
  {
    var t := Trim(s);
    var a := LeadingSpaces(s);
    SliceKeepsNoFence(s, a, a + |t|);
  }

  lemma SliceKeepsNoFence(s: string, a: nat, b: nat)
    requires a <= b <= |s|
    requires !Contains(s, FENCE)
    ensures !Contains(s[a..b], FENCE)
  {
    if Contains(s[a..b], FENCE) {
      var t := s[a..b];
      var i :| 0 <= i <= |t| && OccursAt(t, FENCE, i);
      assert i + 3 <= |t|;
      forall k | 0 <= k < 3 ensures s[a + i + k] == FENCE[k] {
        assert t[i..i + 3][k] == FENCE[k];
      }
      assert s[a + i..a + i + 3] == FENCE;
      assert OccursAt(s, FENCE, a + i);
    }
  }

  /** Text without backquotes in front of the rest passes through the marker removal unchanged. */
  lemma {:induction false} RemoveMarkerPrefix(p: string, t: string, marker: string)
    requires marker != [] && marker[0] == '`'
    requires forall i :: 0 <= i < |p| ==> p[i] != '`'
    ensures RemoveMarker(p + t, marker) == p + RemoveMarker(t, marker)
    decreases |p|
  {
    if p == [] {
      assert p + t == t;
    } else {
      var pt := p + t;
      assert pt[0] == p[0];
      assert !StartsWith(pt, marker) by { assert pt[0] != marker[0]; }
      assert pt[1..] == p[1..] + t;
      assert RemoveMarker(pt, marker) == [p[0]] + RemoveMarker(p[1..] + t, marker);
      RemoveMarkerPrefix(p[1..], t, marker);
      assert p == [p[0]] + p[1..];
    }
  }

  /** A string that neither starts nor ends with white space is its own trim. */
  lemma TrimUnpadded(s: string)
    requires s != [] && !IsSpace(s[0]) && !IsSpace(s[|s| - 1])
    ensures Trim(s) == s
  {
    assert LeadingSpaces(s) == 0;
    assert TrailingSpaces(s) == 0;
  }

  /** A single trailing line break is trimmed away. */
  lemma TrimLineBreak(s: string)
    requires s != [] && !IsSpace(s[0]) && !IsSpace(s[|s| - 1])
    ensures Trim(s + "\n") == s
  {
    var t := s + "\n";
    assert t[0] == s[0];
    assert LeadingSpaces(t) == 0;
    assert t[..|t| - 1] == s;
    assert TrailingSpaces(t) == 1 + TrailingSpaces(s);
    assert TrailingSpaces(s) == 0;
  }

  /** The closing fence alone: too short for the opening marker, and removed whole by the closing one. */
  lemma ClosingFence()
    ensures RemoveMarker(FENCE, JSON_FENCE) == FENCE
    ensures RemoveMarker(FENCE, FENCE) == []
  {
    assert !StartsWith(FENCE, JSON_FENCE);
    assert !StartsWith(FENCE[1..], JSON_FENCE) && !StartsWith(FENCE[2..], JSON_FENCE);
    assert FENCE[1..][1..] == FENCE[2..] && FENCE[2..][1..] == [];
    assert StartsWith(FENCE, FENCE);
    assert SkipSpaces(FENCE[|FENCE|..]) == [];
  }

  /**
   * A reply that wraps its JSON in a fenced block, one line break on each side, comes out as exactly
   * the JSON text: the fences and the line breaks go, the content is kept.
   */
  lemma FencedReplyKeepsContent(s: string)
    requires s != [] && !IsSpace(s[0]) && !IsSpace(s[|s| - 1])
    requires forall i :: 0 <= i < |s| ==> s[i] != '`'
    ensures CleanModelText(JSON_FENCE + "\n" + s + "\n" + FENCE) == s
  {
    var body := s + "\n" + FENCE;
    var text := JSON_FENCE + "\n" + body;
    assert text == JSON_FENCE + "\n" + s + "\n" + FENCE;
    TrimUnpadded(text);
    // the opening marker and the line break after it go
    assert StartsWith(text, JSON_FENCE) by { assert text[..|JSON_FENCE|] == JSON_FENCE; }
    assert text[|JSON_FENCE|..] == "\n" + body;
    assert LeadingSpaces(body) == 0 by { assert body[0] == s[0]; }
    assert LeadingSpaces("\n" + body) == 1 by { assert ("\n" + body)[1..] == body; }
    assert SkipSpaces("\n" + body) == body;
    assert RemoveMarker(text, JSON_FENCE) == RemoveMarker(body, JSON_FENCE);
    // the content and the closing fence survive the first removal
    ClosingFence();
    RemoveMarkerPrefix(s + "\n", FENCE, JSON_FENCE);
    assert RemoveMarker(body, JSON_FENCE) == body;
    // the closing fence goes in the second
    RemoveMarkerPrefix(s + "\n", FENCE, FENCE);
    assert RemoveMarker(body, FENCE) == s + "\n";
    TrimLineBreak(s);
  }

  /** Text without any backquote goes through the marker removal untouched. */
  lemma {:induction false} RemoveMarkerIdentity(s: string, marker: string)
    requires marker != [] && marker[0] == '`'
    requires forall i :: 0 <= i < |s| ==> s[i] != '`'
    ensures RemoveMarker(s, marker) == s
    decreases |s|
  {
    if s != [] {
      assert !StartsWith(s, marker) by { assert s[0] != marker[0]; }
      RemoveMarkerIdentity(s[1..], marker);
      assert s == [s[0]] + s[1..];
    }
  }

  /** A reply without fences only loses its surrounding white space. */
  lemma CleanPlainText(text: string)
    requires forall i :: 0 <= i < |text| ==> text[i] != '`'
    ensures CleanModelText(text) == Trim(text)
  {
    var t := Trim(text);
    assert forall i :: 0 <= i < |t| ==> t[i] != '`' by {
      forall i | 0 <= i < |t| ensures t[i] != '`' {
        assert t[i] == text[LeadingSpaces(text) + i];
      }
    }
    RemoveMarkerIdentity(t, JSON_FENCE);
    RemoveMarkerIdentity(t, FENCE);
    TrimIdempotent(text);
  }

  // ---------------------------------------------------------------- receipts

  const UNKNOWN_ITEM: string := "Unknown Item"

  /** `merchant`, `date` and `total` are all truthy. */
  predicate HasRequiredFields(m: Record) {
    Truthy(Field(m, "merchant")) && Truthy(Field(m, "date")) && Truthy(Field(m, "total"))
  }

  /**
   * The per-item mapping: a fresh object with exactly `name`, `quantity`, `price` and `category`. A
   * null item makes the property read throw.
   */
  function CleanItem(item: Value): (r: Result<Value, AnalysisError>)
    ensures r.Failure? <==> item.Null? || item.Undefined?
    ensures r.Failure? ==> r.error == PropertyOfNull
    ensures r.Success? ==> r.value.Obj? && r.value.fields.Keys == {"name", "quantity", "price", "category"}
    ensures r.Success? ==> Truthy(Prop(item, "name")) ==> r.value.fields["name"] == Prop(item, "name")
    ensures r.Success? ==> !Truthy(Prop(item, "name")) ==> r.value.fields["name"] == Str(UNKNOWN_ITEM)
    ensures r.Success? ==> Truthy(Prop(item, "category")) ==> r.value.fields["category"] == Prop(item, "category")
    ensures r.Success? ==> !Truthy(Prop(item, "category")) ==> r.value.fields["category"] == Str(OTHER)
    ensures r.Success? ==> r.value.fields["quantity"] == Num(NumberOr(Prop(item, "quantity"), 1.0))
    ensures r.Success? ==> r.value.fields["price"] == Num(NumberOr(Prop(item, "price"), 0.0))
  {
    if item.Null? || item.Undefined? then Failure(PropertyOfNull)
    else
      Success(Obj(map[
        "name" := Or(Prop(item, "name"), Str(UNKNOWN_ITEM)),
        "quantity" := Num(NumberOr(Prop(item, "quantity"), 1.0)),
        "price" := Num(NumberOr(Prop(item, "price"), 0.0)),
        "category" := Or(Prop(item, "category"), Str(OTHER))
      ]))
  }

  /** `items.map(cleanItem)`: same length and order; the first null item aborts the whole mapping. */
  function CleanItems(items: seq<Value>): (r: Result<seq<Value>, AnalysisError>)
    ensures r.Failure? <==> exists i :: 0 <= i < |items| && CleanItem(items[i]).Failure?
    ensures r.Failure? ==> r.error == PropertyOfNull
    ensures r.Success? ==> |r.value| == |items|
    ensures r.Success? ==> forall i :: 0 <= i < |items| ==> CleanItem(items[i]) == Success(r.value[i])
  {
    if items == [] then Success([])
    else
      match CleanItem(items[0])
      case Failure(e) =>
        assert 0 < |items| && CleanItem(items[0]).Failure?;
        Failure(e)
      case Success(first) =>
        var tail := items[1..];
        assert forall i :: 0 <= i < |tail| ==> tail[i] == items[i + 1];
        match CleanItems(tail)
        case Failure(e) => Failure(e)
        case Success(rest) =>
          Success([first] + rest)
  }

  /** No entry of the item list is null or undefined, so every property read on an item succeeds. */
  predicate NoNullItem(items: seq<Value>) {
    forall i :: 0 <= i < |items| ==> !items[i].Null? && !items[i].Undefined?
  }

  /** `Array.isArray(x) ? x : []`. */
  function ListOr(x: Value): seq<Value> {
    if x.Arr? then x.elems else []
  }

  /**
   * The cleaned receipt: the parsed object itself, with `total` coerced to a number (0 when not
   * numeric), `subtotal` and `tax` to a number or null, and `items` to the list of cleaned items
   * (empty when `items` was not an array). Every other property passes through unchanged.
   */
  function NormalizeReceipt(v: Value): (r: Result<Value, AnalysisError>)
    ensures r.Success? <==> v.Obj? && HasRequiredFields(v.fields) && NoNullItem(ListOr(Field(v.fields, "items")))
    ensures r.Failure? && v.Obj? && HasRequiredFields(v.fields) ==> r.error == PropertyOfNull
    ensures r.Success? ==> r.value.Obj?
    ensures r.Success? ==> r.value.fields.Keys == v.fields.Keys + {"total", "subtotal", "tax", "items"}
    ensures r.Success? ==> forall k :: k in v.fields && k !in {"total", "subtotal", "tax", "items"} ==>
                              r.value.fields[k] == v.fields[k]
    ensures r.Success? ==> r.value.fields["total"] == Num(NumberOr(v.fields["total"], 0.0))
    ensures r.Success? ==> r.value.fields["subtotal"] == NumberOrNull(Field(v.fields, "subtotal"))
    ensures r.Success? ==> r.value.fields["tax"] == NumberOrNull(Field(v.fields, "tax"))
    ensures r.Success? ==> r.value.fields["items"].Arr?
    ensures r.Success? ==> var cleaned := r.value.fields["items"].elems;
                           var raw := ListOr(Field(v.fields, "items"));
                           |cleaned| == |raw| && forall i :: 0 <= i < |raw| ==> CleanItem(raw[i]) == Success(cleaned[i])
  {
    if v.Null? || v.Undefined? then Failure(PropertyOfNull)
    else if !v.Obj? || !HasRequiredFields(v.fields) then Failure(IncompleteData)   // other values have no properties
    else
      var m := v.fields;
      match CleanItems(ListOr(Field(m, "items")))
      case Failure(e) => Failure(e)
      case Success(cleaned) =>
        Success(Obj(m["total" := Num(NumberOr(m["total"], 0.0))]
                     ["subtotal" := NumberOrNull(Field(m, "subtotal"))]
                     ["tax" := NumberOrNull(Field(m, "tax"))]
                     ["items" := Arr(cleaned)]))
  }

  /**
   * The cleaning steps of the extraction, in the order the source applies them to the parsed object:
   * reject, default a non-array `items`, coerce `total`, `subtotal` and `tax`, then map the items.
   */
  method AnalyzeReceiptData(parsed: Value) returns (r: Result<Value, AnalysisError>)
    ensures r == NormalizeReceipt(parsed)
  {
    if parsed.Null? || parsed.Undefined? {
      return Failure(PropertyOfNull);
    }
    if !parsed.Obj? || !HasRequiredFields(parsed.fields) {
      return Failure(IncompleteData);
    }
    var receipt := parsed.fields;
    if !Field(receipt, "items").Arr? {
      receipt := receipt["items" := Arr([])];
    }
    receipt := receipt["total" := Num(NumberOr(Field(receipt, "total"), 0.0))];
    receipt := receipt["subtotal" := NumberOrNull(Field(receipt, "subtotal"))];
    receipt := receipt["tax" := NumberOrNull(Field(receipt, "tax"))];
    assert Field(receipt, "items").elems == ListOr(Field(parsed.fields, "items"));
    var items := CleanItems(Field(receipt, "items").elems);
    if items.Failure? {
      return Failure(items.error);
    }
    receipt := receipt["items" := Arr(items.value)];
    ghost var m := parsed.fields;
    assert receipt == m["total" := Num(NumberOr(m["total"], 0.0))]
                       ["subtotal" := NumberOrNull(Field(m, "subtotal"))]
                       ["tax" := NumberOrNull(Field(m, "tax"))]
                       ["items" := Arr(items.value)];
    r := Success(Obj(receipt));
  }

  /** The normaliser refuses exactly the objects that lack a truthy `merchant`, `date` or `total`. */
  lemma RejectsIncomplete(v: Value)
    requires v.Obj?
    ensures NormalizeReceipt(v) == Failure(IncompleteData) <==> !HasRequiredFields(v.fields)
  {
  }

  /** A required field that is missing, empty, null, false or zero gets the receipt refused. */
  lemma RejectsFalsyRequired(m: Record, key: string)
    requires key in {"merchant", "date", "total"}
    requires !Truthy(Field(m, key))
    ensures NormalizeReceipt(Obj(m)) == Failure(IncompleteData)
  {
  }

  /** A null anywhere in the item list makes the whole extraction fail. */
  lemma RejectsNullItem(m: Record, i: nat)
    requires HasRequiredFields(m)
    requires i < |ListOr(Field(m, "items"))| && ListOr(Field(m, "items"))[i].Null?
    ensures NormalizeReceipt(Obj(m)) == Failure(PropertyOfNull)
  {
    assert CleanItem(ListOr(Field(m, "items"))[i]).Failure?;
  }

  /** A cleaned item survives a second cleaning unchanged. */
  lemma CleanItemIdempotent(item: Value, cleaned: Value)
    requires CleanItem(item) == Success(cleaned)
    ensures CleanItem(cleaned) == Success(cleaned)
  {
    var f := cleaned.fields;
    assert Prop(cleaned, "name") == f["name"] && Truthy(f["name"]);
    assert Prop(cleaned, "category") == f["category"] && Truthy(f["category"]);
    assert NumberOr(Prop(cleaned, "quantity"), 1.0) == NumberOr(Prop(item, "quantity"), 1.0);
    assert NumberOr(Prop(cleaned, "price"), 0.0) == NumberOr(Prop(item, "price"), 0.0);
    assert CleanItem(cleaned).value.fields == f;
  }

  lemma {:induction false} CleanItemsIdempotent(items: seq<Value>, cleaned: seq<Value>)
    requires CleanItems(items) == Success(cleaned)
    ensures CleanItems(cleaned) == Success(cleaned)
  {
    forall i | 0 <= i < |cleaned| ensures CleanItem(cleaned[i]) == Success(cleaned[i]) {
      CleanItemIdempotent(items[i], cleaned[i]);
    }
    var r := CleanItems(cleaned);
    assert r.Success?;
    assert r.value == cleaned by {
      forall i | 0 <= i < |cleaned| ensures r.value[i] == cleaned[i] {
        assert CleanItem(cleaned[i]) == Success(r.value[i]);
      }
    }
  }

  /** Writing a property with the value it already holds leaves the object as it is. */
  lemma UpdateWithSame(m: Record, k: string, x: Value)
    requires k in m && m[k] == x
    ensures m[k := x] == m
  {
  }

  /** Normalising a normalised receipt whose total is non-zero returns it unchanged. */
  lemma NormalizeIdempotent(v: Value, w: Value)
    requires NormalizeReceipt(v) == Success(w)
    requires w.fields["total"] != Num(0.0)
    ensures NormalizeReceipt(w) == Success(w)
  {
    var m := w.fields;
    var cleaned := m["items"].elems;
    assert CleanItems(ListOr(Field(v.fields, "items"))) == Success(cleaned);
    CleanItemsIdempotent(ListOr(Field(v.fields, "items")), cleaned);
    assert HasRequiredFields(m);
    assert NumberOr(m["total"], 0.0) == m["total"].n;
    NumberOrNullIdempotent(Field(v.fields, "subtotal"));
    NumberOrNullIdempotent(Field(v.fields, "tax"));
    var t := Num(NumberOr(m["total"], 0.0));
    var st := NumberOrNull(Field(m, "subtotal"));
    var tx := NumberOrNull(Field(m, "tax"));
    UpdateWithSame(m, "total", t);
    UpdateWithSame(m, "subtotal", st);
    UpdateWithSame(m, "tax", tx);
    UpdateWithSame(m, "items", Arr(cleaned));
  }

  // ---------------------------------------------------------------- insights

  /** Insight generation needs a receipt list that is present and not empty. */
  function RequireReceipts<T>(receipts: Option<seq<T>>): (r: Result<seq<T>, AnalysisError>)
    ensures r.Success? <==> receipts.Some? && |receipts.value| > 0
    ensures r.Success? ==> r.value == receipts.value
    ensures r.Failure? ==> r.error == NoReceipts
  {
    if receipts.None? || |receipts.value| == 0 then Failure(NoReceipts) else Success(receipts.value)
  }

  /** The insight document as the analysis step returns it. */
  datatype Insights = Insights(
    totalSpent: real,
    budgetUtilization: real,
    topCategory: Value,
    topMerchant: Value,
    insights: seq<Value>,
    budgetRecommendations: seq<Value>,
    savingOpportunities: seq<Value>,
    spendingTrend: Value,
    unusualTransactions: seq<Value>,
    predictedNextMonth: real,
    financialHealthScore: real)

  const NEUTRAL_HEALTH_SCORE: real := 50.0

  /** The defaults applied to the parsed insight reply. */
  function NormalizeInsights(v: Value): (r: Result<Insights, AnalysisError>)
    ensures r.Failure? <==> v.Null? || v.Undefined?
    ensures r.Success? ==> r.value.financialHealthScore != 0.0
    ensures r.Success? ==> Truthy(r.value.topCategory) && Truthy(r.value.topMerchant) && Truthy(r.value.spendingTrend)
    ensures r.Success? ==> r.value.totalSpent == NumberOr(Prop(v, "totalSpent"), 0.0)
    ensures r.Success? ==> r.value.insights == (if Prop(v, "insights").Arr? then Prop(v, "insights").elems else [])
    ensures r.Success? && !TruthyNumber(ToNumber(Prop(v, "financialHealthScore"))) ==>
              r.value.financialHealthScore == NEUTRAL_HEALTH_SCORE
    ensures r.Success? && !TruthyNumber(ToNumber(Prop(v, "budgetUtilization"))) ==> r.value.budgetUtilization == 0.0
    ensures r.Success? && !TruthyNumber(ToNumber(Prop(v, "predictedNextMonth"))) ==> r.value.predictedNextMonth == 0.0
    ensures r.Success? && !Truthy(Prop(v, "topCategory")) ==> r.value.topCategory == Str(OTHER)
    ensures r.Success? && !Truthy(Prop(v, "topMerchant")) ==> r.value.topMerchant == Str("Unknown")
    ensures r.Success? && !Truthy(Prop(v, "spendingTrend")) ==> r.value.spendingTrend == Str("stable")
    ensures r.Success? && !Prop(v, "budgetRecommendations").Arr? ==> r.value.budgetRecommendations == []
    ensures r.Success? && !Prop(v, "savingOpportunities").Arr? ==> r.value.savingOpportunities == []
    ensures r.Success? && !Prop(v, "unusualTransactions").Arr? ==> r.value.unusualTransactions == []
    // what a usable reply supplies is kept
    ensures r.Success? && TruthyNumber(ToNumber(Prop(v, "financialHealthScore"))) ==>
              Finite(r.value.financialHealthScore) == ToNumber(Prop(v, "financialHealthScore"))
    ensures r.Success? && TruthyNumber(ToNumber(Prop(v, "budgetUtilization"))) ==>
              Finite(r.value.budgetUtilization) == ToNumber(Prop(v, "budgetUtilization"))
    ensures r.Success? && TruthyNumber(ToNumber(Prop(v, "predictedNextMonth"))) ==>
              Finite(r.value.predictedNextMonth) == ToNumber(Prop(v, "predictedNextMonth"))
    ensures r.Success? && Truthy(Prop(v, "topCategory")) ==> r.value.topCategory == Prop(v, "topCategory")
    ensures r.Success? && Truthy(Prop(v, "topMerchant")) ==> r.value.topMerchant == Prop(v, "topMerchant")
    ensures r.Success? && Truthy(Prop(v, "spendingTrend")) ==> r.value.spendingTrend == Prop(v, "spendingTrend")
    ensures r.Success? && Prop(v, "budgetRecommendations").Arr? ==>
              r.value.budgetRecommendations == Prop(v, "budgetRecommendations").elems
    ensures r.Success? && Prop(v, "savingOpportunities").Arr? ==>
              r.value.savingOpportunities == Prop(v, "savingOpportunities").elems
    ensures r.Success? && Prop(v, "unusualTransactions").Arr? ==>
              r.value.unusualTransactions == Prop(v, "unusualTransactions").elems
  {
    if v.Null? || v.Undefined? then Failure(PropertyOfNull)
    else
      Success(Insights(
        NumberOr(Prop(v, "totalSpent"), 0.0),
        NumberOr(Prop(v, "budgetUtilization"), 0.0),
        Or(Prop(v, "topCategory"), Str(OTHER)),
        Or(Prop(v, "topMerchant"), Str("Unknown")),
        ListOr(Prop(v, "insights")),
        ListOr(Prop(v, "budgetRecommendations")),
        ListOr(Prop(v, "savingOpportunities")),
        Or(Prop(v, "spendingTrend"), Str("stable")),
        ListOr(Prop(v, "unusualTransactions")),
        NumberOr(Prop(v, "predictedNextMonth"), 0.0),
        NumberOr(Prop(v, "financialHealthScore"), NEUTRAL_HEALTH_SCORE)))
  }

  /** The returned object, as a plain record (what `saveInsights` is given). */
  function InsightsRecord(x: Insights): Record {
    map[
      "totalSpent" := Num(x.totalSpent),
      "budgetUtilization" := Num(x.budgetUtilization),
      "topCategory" := x.topCategory,
      "topMerchant" := x.topMerchant,
      "insights" := Arr(x.insights),
      "budgetRecommendations" := Arr(x.budgetRecommendations),
      "savingOpportunities" := Arr(x.savingOpportunities),
      "spendingTrend" := x.spendingTrend,
      "unusualTransactions" := Arr(x.unusualTransactions),
      "predictedNextMonth" := Num(x.predictedNextMonth),
      "financialHealthScore" := Num(x.financialHealthScore)
    ]
  }

  lemma InsightsRecordFields(x: Insights)
    ensures var m := InsightsRecord(x);
      && m["totalSpent"] == Num(x.totalSpent)
      && m["budgetUtilization"] == Num(x.budgetUtilization)
      && m["topCategory"] == x.topCategory
      && m["topMerchant"] == x.topMerchant
      && m["insights"] == Arr(x.insights)
      && m["budgetRecommendations"] == Arr(x.budgetRecommendations)
      && m["savingOpportunities"] == Arr(x.savingOpportunities)
      && m["spendingTrend"] == x.spendingTrend
      && m["unusualTransactions"] == Arr(x.unusualTransactions)
      && m["predictedNextMonth"] == Num(x.predictedNextMonth)
      && m["financialHealthScore"] == Num(x.financialHealthScore)
  {
  }

  /** Applying the defaults to an already defaulted document changes nothing. */
  lemma NormalizeInsightsIdempotent(v: Value)
    requires NormalizeInsights(v).Success?
    ensures NormalizeInsights(Obj(InsightsRecord(NormalizeInsights(v).value))) == NormalizeInsights(v)
  {
    var x := NormalizeInsights(v).value;
    var w := Obj(InsightsRecord(x));
    InsightsRecordFields(x);
    assert NumberOr(Prop(w, "totalSpent"), 0.0) == x.totalSpent;
    assert NumberOr(Prop(w, "budgetUtilization"), 0.0) == x.budgetUtilization;
    assert Or(Prop(w, "topCategory"), Str(OTHER)) == x.topCategory;
    assert Or(Prop(w, "topMerchant"), Str("Unknown")) == x.topMerchant;
    assert ListOr(Prop(w, "insights")) == x.insights;
    assert ListOr(Prop(w, "budgetRecommendations")) == x.budgetRecommendations;
    assert ListOr(Prop(w, "savingOpportunities")) == x.savingOpportunities;
    assert Or(Prop(w, "spendingTrend"), Str("stable")) == x.spendingTrend;
    assert ListOr(Prop(w, "unusualTransactions")) == x.unusualTransactions;
    assert NumberOr(Prop(w, "predictedNextMonth"), 0.0) == x.predictedNextMonth;
    assert NumberOr(Prop(w, "financialHealthScore"), NEUTRAL_HEALTH_SCORE) == x.financialHealthScore;
  }
}
