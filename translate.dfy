/** scripts/translate_projects.py: which parts of a raw project mapping are sent to the
    translating model and how the answers are put back. The model call is a parameter. */
module Translate {
  import opened Models
  import opened Results
  import Py
  import Text

  /** `client.invoke(prompt)` for the prompt asking to translate a text: the model's
      answer, or the exception the call raises. */
  type Translator = string -> Result<string>

  /** `translate_field`: an empty or non-string value is returned as it is; a text is
      replaced by the stripped answer of the model. */
  function TranslateField(tr: Translator, v: Value): (r: Result<Value>)
    ensures !(v.Str? && v.s != "") ==> r == Ok(v)
    ensures v.Str? && v.s != "" ==>
              (r.Ok? <==> tr(v.s).Ok?)
              && (r.Ok? ==> r.value == Str(Text.Strip(tr(v.s).value)))
              && (r.Err? ==> r.error == tr(v.s).error)
  {
    if !Py.Truthy(v) || !v.Str? then Ok(v)
    else
      var answer :- tr(v.s);
      Ok(Str(Text.Strip(answer)))
  }

  /** `translate_value`: every text inside lists and dicts is translated, in order; dict
      keys and all other values are kept. */
  function TranslateValue(tr: Translator, v: Value): (r: Result<Value>)
    ensures v.Str? ==> r == TranslateField(tr, v)
    ensures !(v.Str? || v.List? || v.Dict?) ==> r == Ok(v)
    ensures v.List? ==> (r.Ok? ==> r.value.List? && |r.value.items| == |v.items|)
    ensures v.Dict? ==> (r.Ok? ==> r.value.Dict? && |r.value.entries| == |v.entries|)
    decreases v, 1, 0
  {
    match v
    case Str(_) => TranslateField(tr, v)
    case List(_) =>
      var items :- TranslateItems(tr, v, 0);
      Ok(List(items))
    case Dict(_) =>
      var entries :- TranslateEntries(tr, v, 0);
      Ok(Dict(entries))
    case _ => Ok(v)
  }

  /** The list comprehension of `translate_value` from position `i` on. */
  function TranslateItems(tr: Translator, v: Value, i: nat): (r: Result<seq<Value>>)
    requires v.List? && i <= |v.items|
    ensures r.Ok? ==> |r.value| == |v.items| - i
    decreases v, 0, |v.items| - i
  {
    if i == |v.items| then Ok([])
    else
      var head :- TranslateValue(tr, v.items[i]);
      var rest :- TranslateItems(tr, v, i + 1);
      Ok([head] + rest)
  }

  /** The dict comprehension of `translate_value` from position `i` on. */
  function TranslateEntries(tr: Translator, v: Value, i: nat): (r: Result<seq<(string, Value)>>)
    requires v.Dict? && i <= |v.entries|
    ensures r.Ok? ==> |r.value| == |v.entries| - i
    decreases v, 0, |v.entries| - i
  {
    if i == |v.entries| then Ok([])
    else
      var e := v.entries[i];
      assert e in v.entries;
      var value :- TranslateValue(tr, e.1);
      var rest :- TranslateEntries(tr, v, i + 1);
      Ok([(e.0, value)] + rest)
  }

  /** Every non-empty text inside the value gets an answer from the model. */
  predicate Answered(tr: Translator, v: Value)
    decreases v
  {
    match v
    case Str(s) => s == "" || tr(s).Ok?
    case List(items) => forall i | 0 <= i < |items| :: Answered(tr, items[i])
    case Dict(entries) => forall i | 0 <= i < |entries| :: Answered(tr, entries[i].1)
    case _ => true
  }

  /** `b` is `a` translated: every text as `translate_field` answers it, lists element by
      element, dicts with the same keys in the same order and each value translated, and
      every other value equal. */
  predicate TranslatedFrom(tr: Translator, a: Value, b: Value)
    decreases a
  {
    match a
    case Str(_) => TranslateField(tr, a) == Ok(b)
    case List(items) =>
      b.List? && |b.items| == |items|
      && forall i | 0 <= i < |items| :: TranslatedFrom(tr, items[i], b.items[i])
    case Dict(entries) =>
      b.Dict? && |b.entries| == |entries|
      && forall i | 0 <= i < |entries| ::
           b.entries[i].0 == entries[i].0 && TranslatedFrom(tr, entries[i].1, b.entries[i].1)
    case _ => b == a
  }

  /** `translate_value` raises exactly when the model fails on a text inside the value;
      otherwise it gives the value translated. */
  lemma {:induction false} TranslateValueCorrect(tr: Translator, v: Value)
    ensures TranslateValue(tr, v).Ok? <==> Answered(tr, v)
    ensures TranslateValue(tr, v).Ok? ==> TranslatedFrom(tr, v, TranslateValue(tr, v).value)
    decreases v, 1, 0
  {
    if v.List? {
      TranslateItemsCorrect(tr, v, 0);
      ListCorrect(tr, v);
    } else if v.Dict? {
      TranslateEntriesCorrect(tr, v, 0);
      DictCorrect(tr, v);
    }
  }

  /** The list case of `TranslateValueCorrect`, from the facts about its comprehension. */
  lemma ListCorrect(tr: Translator, v: Value)
    requires v.List?
    requires TranslateItems(tr, v, 0).Ok? <==> forall k | 0 <= k < |v.items| :: Answered(tr, v.items[k])
    requires var r := TranslateItems(tr, v, 0);
      r.Ok? ==> forall k | 0 <= k < |r.value| :: TranslatedFrom(tr, v.items[0 + k], r.value[k])
    ensures TranslateValue(tr, v).Ok? <==> Answered(tr, v)
    ensures TranslateValue(tr, v).Ok? ==> TranslatedFrom(tr, v, TranslateValue(tr, v).value)
  {
    var r := TranslateItems(tr, v, 0);
    if r.Ok? {
      assert TranslateValue(tr, v) == Ok(List(r.value));
      forall k | 0 <= k < |v.items| ensures TranslatedFrom(tr, v.items[k], r.value[k]) {
        assert v.items[0 + k] == v.items[k];
      }
    }
  }

  /** The dict case of `TranslateValueCorrect`, from the facts about its comprehension. */
  lemma DictCorrect(tr: Translator, v: Value)
    requires v.Dict?
    requires TranslateEntries(tr, v, 0).Ok? <==> forall k | 0 <= k < |v.entries| :: Answered(tr, v.entries[k].1)
    requires var r := TranslateEntries(tr, v, 0);
      r.Ok? ==> forall k | 0 <= k < |r.value| ::
        r.value[k].0 == v.entries[0 + k].0 && TranslatedFrom(tr, v.entries[0 + k].1, r.value[k].1)
    ensures TranslateValue(tr, v).Ok? <==> Answered(tr, v)
    ensures TranslateValue(tr, v).Ok? ==> TranslatedFrom(tr, v, TranslateValue(tr, v).value)
  {
    var r := TranslateEntries(tr, v, 0);
    if r.Ok? {
      assert TranslateValue(tr, v) == Ok(Dict(r.value));
      forall k | 0 <= k < |v.entries|
        ensures r.value[k].0 == v.entries[k].0 && TranslatedFrom(tr, v.entries[k].1, r.value[k].1)
      {
        assert v.entries[0 + k] == v.entries[k];
      }
    }
  }

  lemma {:induction false} TranslateItemsCorrect(tr: Translator, v: Value, i: nat)
    requires v.List? && i <= |v.items|
    ensures TranslateItems(tr, v, i).Ok? <==> forall k | i <= k < |v.items| :: Answered(tr, v.items[k])
    ensures var r := TranslateItems(tr, v, i);
      r.Ok? ==> forall k | 0 <= k < |r.value| :: TranslatedFrom(tr, v.items[i + k], r.value[k])
    decreases v, 0, |v.items| - i
  {
    if i < |v.items| {
      TranslateValueCorrect(tr, v.items[i]);
      TranslateItemsCorrect(tr, v, i + 1);
      ItemsStep(tr, v, i);
      AnsweredFrom(tr, v.items, i);
      if TranslateItems(tr, v, i).Ok? {
        ItemsCons(tr, v.items, i, TranslateValue(tr, v.items[i]).value, TranslateItems(tr, v, i + 1).value);
      }
    }
  }

  /** One step of the list comprehension: the first element, then the rest. */
  lemma ItemsStep(tr: Translator, v: Value, i: nat)
    requires v.List? && i < |v.items|
    ensures TranslateItems(tr, v, i).Ok? <==>
              TranslateValue(tr, v.items[i]).Ok? && TranslateItems(tr, v, i + 1).Ok?
    ensures TranslateItems(tr, v, i).Ok? ==>
              TranslateItems(tr, v, i).value ==
                [TranslateValue(tr, v.items[i]).value] + TranslateItems(tr, v, i + 1).value
  {
  }

  /** Every element from `i` on is answered exactly when the one at `i` and all after it are. */
  lemma AnsweredFrom(tr: Translator, items: seq<Value>, i: nat)
    requires i < |items|
    ensures (forall k | i <= k < |items| :: Answered(tr, items[k])) <==>
              Answered(tr, items[i]) && forall k | i + 1 <= k < |items| :: Answered(tr, items[k])
  {
  }

  /** A list built from a translated first element and translated rest is translated. */
  lemma ItemsCons(tr: Translator, items: seq<Value>, i: nat, head: Value, rest: seq<Value>)
    requires i < |items| && TranslatedFrom(tr, items[i], head)
    requires forall k | 0 <= k < |rest| :: i + 1 + k < |items| && TranslatedFrom(tr, items[i + 1 + k], rest[k])
    ensures var r := [head] + rest;
      forall k | 0 <= k < |r| :: i + k < |items| && TranslatedFrom(tr, items[i + k], r[k])
  {
    var r := [head] + rest;
    forall k | 0 <= k < |r| ensures i + k < |items| && TranslatedFrom(tr, items[i + k], r[k]) {
      if k == 0 {
        assert r[k] == head && items[i + k] == items[i];
      } else {
        var j := k - 1;
        assert r[k] == rest[j] && i + k == i + 1 + j;
        assert i + 1 + j < |items| && TranslatedFrom(tr, items[i + 1 + j], rest[j]);
      }
    }
  }

  lemma {:induction false} TranslateEntriesCorrect(tr: Translator, v: Value, i: nat)
    requires v.Dict? && i <= |v.entries|
    ensures TranslateEntries(tr, v, i).Ok? <==> forall k | i <= k < |v.entries| :: Answered(tr, v.entries[k].1)
    ensures var r := TranslateEntries(tr, v, i);
      r.Ok? ==> forall k | 0 <= k < |r.value| ::
        r.value[k].0 == v.entries[i + k].0 && TranslatedFrom(tr, v.entries[i + k].1, r.value[k].1)
    decreases v, 0, |v.entries| - i
  {
    if i < |v.entries| {
      var e := v.entries[i];
      assert e in v.entries;
      EntriesStep(tr, v, i);
      TranslateValueCorrect(tr, e.1);
      TranslateEntriesCorrect(tr, v, i + 1);
      EntryAnsweredFrom(tr, v.entries, i);
      if TranslateEntries(tr, v, i).Ok? {
        EntriesCons(tr, v.entries, i, TranslateValue(tr, e.1).value, TranslateEntries(tr, v, i + 1).value);
      }
    }
  }

  /** One step of the dict comprehension: the first entry, then the rest. */
  lemma EntriesStep(tr: Translator, v: Value, i: nat)
    requires v.Dict? && i < |v.entries|
    ensures TranslateEntries(tr, v, i).Ok? <==>
              TranslateValue(tr, v.entries[i].1).Ok? && TranslateEntries(tr, v, i + 1).Ok?
    ensures TranslateEntries(tr, v, i).Ok? ==>
              TranslateEntries(tr, v, i).value ==
                [(v.entries[i].0, TranslateValue(tr, v.entries[i].1).value)] + TranslateEntries(tr, v, i + 1).value
  {
  }

  /** Every value from `i` on is answered exactly when the one at `i` and all after it are. */
  lemma EntryAnsweredFrom(tr: Translator, entries: seq<(string, Value)>, i: nat)
    requires i < |entries|
    ensures (forall k | i <= k < |entries| :: Answered(tr, entries[k].1)) <==>
              Answered(tr, entries[i].1) && forall k | i + 1 <= k < |entries| :: Answered(tr, entries[k].1)
  {
  }

  /** A dict built from a translated first entry and translated rest is translated. */
  lemma EntriesCons(tr: Translator, entries: seq<(string, Value)>, i: nat, head: Value, rest: seq<(string, Value)>)
    requires i < |entries| && TranslatedFrom(tr, entries[i].1, head)
    requires forall k | 0 <= k < |rest| ::
               i + 1 + k < |entries| && rest[k].0 == entries[i + 1 + k].0
               && TranslatedFrom(tr, entries[i + 1 + k].1, rest[k].1)
    ensures forall k | 0 <= k < 1 + |rest| ::
        i + k < |entries| && ([(entries[i].0, head)] + rest)[k].0 == entries[i + k].0
        && TranslatedFrom(tr, entries[i + k].1, ([(entries[i].0, head)] + rest)[k].1)
  {
    var r := [(entries[i].0, head)] + rest;
    forall k | 0 <= k < |r|
      ensures i + k < |entries| && r[k].0 == entries[i + k].0 && TranslatedFrom(tr, entries[i + k].1, r[k].1)
    {
      if k == 0 {
        assert r[k] == (entries[i].0, head) && entries[i + k] == entries[i];
      } else {
        var j := k - 1;
        assert r[k] == rest[j] && i + k == i + 1 + j;
        assert i + 1 + j < |entries| && rest[j].0 == entries[i + 1 + j].0
          && TranslatedFrom(tr, entries[i + 1 + j].1, rest[j].1);
      }
    }
  }

  /** The value holds a text the model would be asked to translate. */
  predicate HasText(v: Value)
    decreases v
  {
    match v
    case Str(s) => s != ""
    case List(items) => exists i | 0 <= i < |items| :: HasText(items[i])
    case Dict(entries) => exists i | 0 <= i < |entries| :: HasText(entries[i].1)
    case _ => false
  }

  /** Only non-empty texts reach the model: a value without one comes back unchanged,
      whatever the model would answer. */
  lemma {:induction false} NoTextUnchanged(tr: Translator, v: Value)
    requires !HasText(v)
    ensures TranslateValue(tr, v) == Ok(v)
    decreases v, 1, 0
  {
    match v
    case List(items) =>
      NoTextItems(tr, v, 0);
      assert v.items[0..] == items;
    case Dict(entries) =>
      NoTextEntries(tr, v, 0);
      assert v.entries[0..] == entries;
    case _ =>
  }

  lemma {:induction false} NoTextItems(tr: Translator, v: Value, i: nat)
    requires v.List? && i <= |v.items| && !HasText(v)
    ensures TranslateItems(tr, v, i) == Ok(v.items[i..])
    decreases v, 0, |v.items| - i
  {
    if i < |v.items| {
      assert !HasText(v.items[i]);
      NoTextUnchanged(tr, v.items[i]);
      NoTextItems(tr, v, i + 1);
      ItemsStep(tr, v, i);
      assert TranslateValue(tr, v.items[i]) == Ok(v.items[i]);
      assert TranslateItems(tr, v, i + 1) == Ok(v.items[i + 1..]);
      assert v.items[i..] == [v.items[i]] + v.items[i + 1..];
      assert TranslateItems(tr, v, i) == Ok([v.items[i]] + v.items[i + 1..]);
    } else {
      assert v.items[i..] == [];
    }
  }

  lemma {:induction false} NoTextEntries(tr: Translator, v: Value, i: nat)
    requires v.Dict? && i <= |v.entries| && !HasText(v)
    ensures TranslateEntries(tr, v, i) == Ok(v.entries[i..])
    decreases v, 0, |v.entries| - i
  {
    if i < |v.entries| {
      var e := v.entries[i];
      assert e in v.entries;
      assert !HasText(e.1);
      NoTextUnchanged(tr, e.1);
      NoTextEntries(tr, v, i + 1);
      EntriesStep(tr, v, i);
      assert v.entries[i..] == [(e.0, e.1)] + v.entries[i + 1..];
      assert TranslateEntries(tr, v, i) == Ok([(e.0, e.1)] + v.entries[i + 1..]);
    } else {
      assert v.entries[i..] == [];
    }
  }

  /** `preserve_fields`: keys whose values are copied untranslated. */
  const PreserveFields: set<string> := {
    "role_perspective", "decision_accountability", "responsibility_focus",
    "governance_artifacts", "ai_component_flag", "start", "end", "team_size",
    "budget_level", "stakeholder_tiers"}

  /** `value.copy()`: dicts and lists have it, other values do not. */
  function Copy(v: Value): (r: Result<Value>)
    ensures r.Ok? <==> v.Dict? || v.List?
    ensures r.Ok? ==> r.value == v
  {
    if v.Dict? || v.List? then Ok(v) else Err(AttributeError("object has no attribute 'copy'"))
  }

  /** The `timeframe` branch of `translate_project`: an empty value becomes `{}`; otherwise
      a copy whose non-empty "label" is translated, with every other entry kept. */
  function TranslateTimeframe(tr: Translator, v: Value): (r: Result<Value>)
    ensures !Py.Truthy(v) ==> r == Ok(Dict([]))
    ensures Py.Truthy(v) && !(v.Dict? || v.List?) ==> r.Err? && r.error.AttributeError?
    ensures v.List? && Str("label") in v.items ==> r.Err? && r.error.TypeError?
    ensures v.List? && v.items != [] && Str("label") !in v.items ==> r == Ok(v)
    ensures v.Dict? && !(Py.HasKey(v.entries, "label") && Py.Truthy(Py.Find(v.entries, "label").value)) ==> r == Ok(v)
    ensures v.Dict? && Py.HasKey(v.entries, "label") && Py.Truthy(Py.Find(v.entries, "label").value) ==>
              var newLabel := TranslateField(tr, Py.Find(v.entries, "label").value);
              (r.Ok? <==> newLabel.Ok?)
              && (r.Ok? ==> r.value == Dict(Py.Assign(v.entries, "label", newLabel.value)))
  {
    if !Py.Truthy(v) then Ok(Dict([]))
    else
      var timeframe :- Copy(v);
      var hasLabel := Py.In("label", timeframe).value;
      if !hasLabel then Ok(timeframe)
      else
        var current :- Py.Subscript(timeframe, "label");
        if !Py.Truthy(current) then Ok(timeframe)
        else
          var translated :- TranslateField(tr, current);
          Ok(Dict(Py.Assign(timeframe.entries, "label", translated)))
  }

  /** Translating a timeframe mapping changes at most its label: the keys stay in place
      and every other key keeps its value. */
  lemma TimeframeOnlyLabel(tr: Translator, v: Value, k: string)
    requires v.Dict? && TranslateTimeframe(tr, v).Ok?
    ensures var t := TranslateTimeframe(tr, v).value;
      t.Dict? && |t.entries| == |v.entries|
      && (forall i | 0 <= i < |v.entries| :: t.entries[i].0 == v.entries[i].0)
      && (k != "label" ==> Py.Find(t.entries, k) == Py.Find(v.entries, k))
  {
    var t := TranslateTimeframe(tr, v).value;
    if Py.HasKey(v.entries, "label") && Py.Truthy(Py.Find(v.entries, "label").value) {
      var newLabel := TranslateField(tr, Py.Find(v.entries, "label").value).value;
      Py.AssignFind(v.entries, "label", newLabel, k);
    }
  }

  /** One `key, value` step of `translate_project`. */
  function TranslateEntry(tr: Translator, e: (string, Value)): (r: Result<(string, Value)>)
    ensures r.Ok? ==> r.value.0 == e.0
    ensures e.0 in PreserveFields || e.0 == "management_scope" ==> r == Ok(e)
    ensures e.0 == "timeframe" ==>
              (r.Ok? <==> TranslateTimeframe(tr, e.1).Ok?)
              && (r.Ok? ==> r.value.1 == TranslateTimeframe(tr, e.1).value)
    ensures e.0 !in PreserveFields && e.0 != "management_scope" && e.0 != "timeframe" ==>
              (r.Ok? <==> TranslateValue(tr, e.1).Ok?)
              && (r.Ok? ==> r.value.1 == TranslateValue(tr, e.1).value)
  {
    var (key, value) := e;
    if key in PreserveFields then Ok(e)
    else if key == "management_scope" then Ok(e)
    else if key == "timeframe" then
      var timeframe :- TranslateTimeframe(tr, value);
      Ok((key, timeframe))
    else
      var translated :- TranslateValue(tr, value);
      Ok((key, translated))
  }

  /** What `translate_project` returns: a dict with the same keys in the same order, each
      value handled by its key; the first exception stops it. `.items()` needs a dict. */
  function TranslatedProject(tr: Translator, data: Value): (r: Result<Value>)
    ensures !data.Dict? ==> r.Err? && r.error.AttributeError?
    ensures data.Dict? ==> (r.Ok? <==> forall i | 0 <= i < |data.entries| :: TranslateEntry(tr, data.entries[i]).Ok?)
    ensures r.Ok? ==>
              r.value.Dict? && |r.value.entries| == |data.entries|
              && forall i | 0 <= i < |data.entries| ::
                   TranslateEntry(tr, data.entries[i]) == Ok(r.value.entries[i])
    ensures data.Dict? && r.Err? ==>
              exists i | 0 <= i < |data.entries| ::
                (forall j | 0 <= j < i :: TranslateEntry(tr, data.entries[j]).Ok?)
                && TranslateEntry(tr, data.entries[i]) == Err(r.error)
  {
    if !data.Dict? then Err(AttributeError("object has no attribute 'items'"))
    else
      var entries :- MapResult(data.entries, e => TranslateEntry(tr, e));
      Ok(Dict(entries))
  }

  /** `translate_project`: the loop builds the translated dict entry by entry. The keys of
      a loaded mapping are distinct, so each `translated[key] = ...` appends. */
  method TranslateProject(tr: Translator, data: Value) returns (r: Result<Value>)
    ensures r == TranslatedProject(tr, data)
  {
    if !data.Dict? {
      return Err(AttributeError("object has no attribute 'items'"));
    }
    var entries := data.entries;
    var translated: seq<(string, Value)> := [];
    var i := 0;
    while i < |entries|
      invariant 0 <= i <= |entries|
      invariant MapResult(entries[..i], e => TranslateEntry(tr, e)) == Ok(translated)
    {
      var step := TranslateEntry(tr, entries[i]);
      if step.Err? {
        MapResultStops(entries, e => TranslateEntry(tr, e), i, translated);
        return Err(step.error);
      }
      MapResultExtend(entries, e => TranslateEntry(tr, e), i, translated, step.value);
      translated := translated + [step.value];
      i := i + 1;
    }
    assert entries[..i] == entries;
    return Ok(Dict(translated));
  }

  /** The preserved metadata keys and `management_scope` are copied as they are, and every
      key keeps its position. */
  lemma PreservedUntouched(tr: Translator, data: Value, i: nat)
    requires data.Dict? && i < |data.entries| && TranslatedProject(tr, data).Ok?
    ensures var out := TranslatedProject(tr, data).value;
      out.entries[i].0 == data.entries[i].0
      && (data.entries[i].0 in PreserveFields || data.entries[i].0 == "management_scope" ==>
            out.entries[i] == data.entries[i])
  {
    var out := TranslatedProject(tr, data).value;
    assert TranslateEntry(tr, data.entries[i]) == Ok(out.entries[i]);
  }

  /** Every key that is neither preserved nor the timeframe has its value translated. */
  lemma TranslatedOutsidePreserved(tr: Translator, data: Value, i: nat)
    requires data.Dict? && i < |data.entries| && TranslatedProject(tr, data).Ok?
    requires data.entries[i].0 !in PreserveFields
    requires data.entries[i].0 != "management_scope" && data.entries[i].0 != "timeframe"
    ensures TranslatedFrom(tr, data.entries[i].1, TranslatedProject(tr, data).value.entries[i].1)
  {
    var out := TranslatedProject(tr, data).value;
    var e := data.entries[i];
    assert TranslateEntry(tr, e) == Ok(out.entries[i]);
    TranslateValueCorrect(tr, e.1);
  }
}
