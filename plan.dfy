/**
 * The account plan: a Python dict from section key to section text.
 *
 * A dict remembers the order its keys were first inserted in, and the
 * plan is rendered in that order, so the model keeps the entries as a
 * sequence with distinct keys. `AsMap` is the dict's content and
 * `KeyOrder` its iteration order.
 */
module AccountPlan {
  import opened Wrappers
  import opened Text

  datatype Section = Section(key: string, text: string)

  predicate DistinctKeys(p: seq<Section>) {
    forall i, j :: 0 <= i < j < |p| ==> p[i].key != p[j].key
  }

  /** A plan as a dict holds it: no key twice. */
  type Plan = p: seq<Section> | DistinctKeys(p) witness []

  /** The seven section keys the plan prompts ask the model for. */
  const StandardKeys: seq<string> := [
    "company_overview", "key_initiatives", "org_map_and_stakeholders",
    "current_tech_landscape", "opportunities_for_us",
    "risks_and_red_flags", "next_steps"
  ]

  /** `list(plan.keys())`. */
  function KeyOrder(p: seq<Section>): (ks: seq<string>)
    ensures |ks| == |p|
  {
    if p == [] then [] else [p[0].key] + KeyOrder(p[1..])
  }

  /** `dict(plan)`: the key-to-text content, forgetting the order. */
  function AsMap(p: seq<Section>): map<string, string> {
    if p == [] then map[] else AsMap(p[1..])[p[0].key := p[0].text]
  }

  lemma {:induction false} KeyOrderAt(p: seq<Section>, i: nat)
    requires i < |p|
    ensures KeyOrder(p)[i] == p[i].key
  {
    if i > 0 {
      KeyOrderAt(p[1..], i - 1);
    }
  }

  /** The dict's keys are exactly the keys in iteration order. */
  lemma {:induction false} AsMapKeys(p: seq<Section>)
    ensures forall k :: k in AsMap(p) <==> k in KeyOrder(p)
  {
    if p != [] {
      AsMapKeys(p[1..]);
    }
  }

  /** Every entry of a plan is what the dict maps its key to. */
  lemma {:induction false} AsMapAt(p: Plan, i: nat)
    requires i < |p|
    ensures p[i].key in AsMap(p) && AsMap(p)[p[i].key] == p[i].text
  {
    if i > 0 {
      AsMapAt(p[1..], i - 1);
    }
  }

  /** The first key of a plan does not occur again after it. */
  lemma HeadKeyNotInTail(p: Plan)
    requires p != []
    ensures p[0].key !in KeyOrder(p[1..])
  {
    forall i | 0 <= i < |p| - 1 ensures KeyOrder(p[1..])[i] != p[0].key {
      KeyOrderAt(p[1..], i);
    }
  }

  /** A section whose key is not in a plan can be put in front of it. */
  lemma ConsKeepsDistinct(s: Section, p: Plan)
    requires s.key !in KeyOrder(p)
    ensures DistinctKeys([s] + p)
  {
    forall i | 0 <= i < |p| ensures p[i].key != s.key {
      KeyOrderAt(p, i);
    }
  }

  /**
   * `plan[key] = text`: an existing key keeps its place and gets the new
   * text; a new key is appended at the end.
   */
  function Put(p: Plan, key: string, text: string): (r: Plan)
    ensures AsMap(r) == AsMap(p)[key := text]
    ensures KeyOrder(r) == if key in KeyOrder(p) then KeyOrder(p) else KeyOrder(p) + [key]
  {
    if p == [] then [Section(key, text)]
    else if p[0].key == key then
      HeadKeyNotInTail(p);
      assert AsMap(p)[key := text] == AsMap(p[1..])[key := text];
      [Section(key, text)] + p[1..]
    else
      var r' := Put(p[1..], key, text);
      HeadKeyNotInTail(p);
      ConsKeepsDistinct(p[0], r');
      assert AsMap(p)[key := text] == AsMap(r')[p[0].key := p[0].text];
      [p[0]] + r'
  }

  /** The entries for other keys are exactly where and what they were. */
  lemma {:induction false} PutKeepsOtherEntries(p: Plan, key: string, text: string, i: nat)
    requires i < |p| && p[i].key != key
    ensures i < |Put(p, key, text)| && Put(p, key, text)[i] == p[i]
  {
    if i > 0 && p[0].key != key {
      PutKeepsOtherEntries(p[1..], key, text, i - 1);
    }
  }

  /** Every key of the plan is one of the seven standard keys. */
  predicate UsesStandardKeys(p: seq<Section>) {
    forall i :: 0 <= i < |p| ==> p[i].key in StandardKeys
  }

  /**
   * The JSON object the plan-edit call answers with, after `json.loads`:
   * `data.get("section_key")` and `data.get("updated_text", "")`, where
   * `None` stands for a missing key or a JSON null.
   */
  datatype EditAnswer = EditAnswer(sectionKey: Option<string>, updatedText: Option<string>)

  /** Python truthiness of an optional string: present and non-empty. */
  predicate Truthy(o: Option<string>) {
    o.Some? && o.value != ""
  }

  /** The edit is applied only when both fields are truthy. */
  predicate EditApplies(a: EditAnswer) {
    Truthy(a.sectionKey) && Truthy(a.updatedText)
  }

  /**
   * The merge step of the plan edit: `if section and updated_text:
   * plan[section] = updated_text`.
   */
  function MergeEdit(p: Plan, a: EditAnswer): (r: Plan)
    ensures !EditApplies(a) ==> r == p
    ensures EditApplies(a) ==>
      && AsMap(r) == AsMap(p)[a.sectionKey.value := a.updatedText.value]
      && (a.sectionKey.value in KeyOrder(p) ==> KeyOrder(r) == KeyOrder(p))
  {
    if EditApplies(a) then Put(p, a.sectionKey.value, a.updatedText.value) else p
  }

  /** An edit naming a standard key keeps the plan within the standard keys. */
  lemma MergeEditKeepsStandardKeys(p: Plan, a: EditAnswer)
    requires UsesStandardKeys(p)
    requires a.sectionKey.Some? ==> a.sectionKey.value in StandardKeys
    ensures UsesStandardKeys(MergeEdit(p, a))
  {
    var r := MergeEdit(p, a);
    forall i | 0 <= i < |r| ensures r[i].key in StandardKeys {
      KeyOrderAt(r, i);
      if EditApplies(a) && i < |p| {
        KeyOrderAt(p, i);
      } else if i < |p| {
        assert r == p;
      }
    }
  }

  /**
   * The key is not checked against the seven section keys: an edit
   * naming any other key adds that key to the plan.
   */
  lemma MergeEditAddsForeignKey()
    ensures var r := MergeEdit([Section("next_steps", "call the CIO")],
                               EditAnswer(Some("pricing"), Some("discount tiers")));
      UsesStandardKeys([Section("next_steps", "call the CIO")]) && !UsesStandardKeys(r)
  {
    var p: Plan := [Section("next_steps", "call the CIO")];
    var r := MergeEdit(p, EditAnswer(Some("pricing"), Some("discount tiers")));
    assert r == [Section("next_steps", "call the CIO"), Section("pricing", "discount tiers")];
    assert r[1].key !in StandardKeys;
  }
}
