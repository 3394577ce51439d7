/** Journal Entry bodies: the node checks the flat specification leaves to a hook, the schema advertised for
    them, and the weave that turns a placeholder into a stored reference. */
module JournalBody {
  import opened Wrappers
  import opened Json
  import opened FieldSpec
  import opened JsonSchema
  import opened SpecCompiler
  import Text

  type Fields = map<string, Value>

  // ── the hook ───────────────────────────────────────────────────────────

  predicate OnlyKeys(node: Fields, allowed: seq<string>) {
    forall k :: k in node ==> k in allowed
  }

  /** `required_body_node_string`. */
  predicate HasText(node: Fields, allowed: seq<string>, field: string) {
    OnlyKeys(node, allowed) && field in node && node[field].Str? && !IsBlank(node[field].s)
  }

  predicate IsTag(node: Fields, tag: string) {
    "type" in node && node["type"] == Str(tag)
  }

  predicate RefOk(policy: BodyPolicy, node: Fields) {
    match policy
    case TextOnly => false
    case TextOrExistingRef => HasText(node, ["type", "ref_id"], "ref_id") && IsUuid(node["ref_id"].s)
    case TextOrNewRef => OnlyKeys(node, ["type"])
  }

  /** `validate_body_node`. */
  predicate NodeOk(policy: BodyPolicy, v: Value) {
    v.Obj? &&
    ((IsTag(v.fields, "text") && HasText(v.fields, ["type", "text"], "text"))
     || (IsTag(v.fields, "entity_ref") && RefOk(policy, v.fields)))
  }

  /** `validate_journal_body`, on the body itself. */
  predicate BodyOk(policy: BodyPolicy, body: Value) {
    body.Arr? && body.items != [] && forall i :: 0 <= i < |body.items| ==> NodeOk(policy, body.items[i])
  }

  predicate IsRef(v: Value) {
    AsStr(Get(v, "type")) == Some("entity_ref")
  }

  function CountRefs(nodes: seq<Value>): nat {
    if nodes == [] then 0 else CountRefs(nodes[..|nodes| - 1]) + if IsRef(nodes[|nodes| - 1]) then 1 else 0
  }

  /** The reference proposal's body: valid nodes, and exactly one placeholder. */
  predicate ReferenceBodyOk(body: Value) {
    BodyOk(TextOrNewRef, body) && CountRefs(body.items) == 1
  }

  // ── the advertised schema ──────────────────────────────────────────────

  /** What the schema cannot say of a node. */
  predicate NodeBeyond(policy: BodyPolicy, v: Value) {
    v.Obj? ==>
      && (IsTag(v.fields, "text") && "text" in v.fields && v.fields["text"].Str? ==> !IsBlank(v.fields["text"].s))
      && (policy == TextOrExistingRef && IsTag(v.fields, "entity_ref") && "ref_id" in v.fields && v.fields["ref_id"].Str? ==>
            IsUuid(v.fields["ref_id"].s))
  }

  predicate BodyBeyond(policy: BodyPolicy, body: Value) {
    body.Arr? ==> forall i :: 0 <= i < |body.items| ==> NodeBeyond(policy, body.items[i])
  }

  lemma {:induction false} TagIs(tag: string, v: Value)
    ensures Validates(TagSchema(tag), v) <==> v == Str(tag)
  {
  }

  lemma {:induction false} TextIs(v: Value)
    ensures Validates(NON_EMPTY, v) <==> v.Str? && v.s != ""
  {
  }

  lemma {:induction false} TwoKeyNode(tag: string, key: string, v: Value)
    requires key != "type"
    ensures Validates(NODE.(properties := map["type" := TagSchema(tag), key := NON_EMPTY], required := ["type", key]), v)
            <==> v.Obj? && IsTag(v.fields, tag) && OnlyKeys(v.fields, ["type", key]) && key in v.fields && v.fields[key].Str? && v.fields[key].s != ""
  {
    var schema := NODE.(properties := map["type" := TagSchema(tag), key := NON_EMPTY], required := ["type", key]);
    if v.Obj? && "type" in v.fields && key in v.fields {
      TagIs(tag, v.fields["type"]);
      TextIs(v.fields[key]);
      assert schema.properties["type"] == TagSchema(tag) && schema.properties[key] == NON_EMPTY;
    }
    if v.Obj? && !("type" in v.fields) { assert schema.required[0] !in v.fields; }
    if v.Obj? && !(key in v.fields) { assert schema.required[1] !in v.fields; }
  }

  lemma {:induction false} PlaceholderIs(v: Value)
    ensures Validates(PLACEHOLDER, v) <==> v.Obj? && IsTag(v.fields, "entity_ref") && OnlyKeys(v.fields, ["type"])
  {
    if v.Obj? && "type" in v.fields {
      TagIs("entity_ref", v.fields["type"]);
      assert PLACEHOLDER.properties["type"] == TagSchema("entity_ref");
    }
    if v.Obj? && !("type" in v.fields) { assert PLACEHOLDER.required[0] !in v.fields; }
  }

  lemma {:induction false} OneOfOne(a: Schema, v: Value)
    ensures ExactlyOne([a], v) <==> Validates(a, v)
  {
    hide Validates;
    if Validates(a, v) { assert Validates([a][0], v); }
  }

  /** At most one of two branches can hold: then exactly one means either. */
  lemma {:induction false} OneOfTwo(a: Schema, b: Schema, v: Value)
    requires !(Validates(a, v) && Validates(b, v))
    ensures ExactlyOne([a, b], v) <==> Validates(a, v) || Validates(b, v)
  {
    hide Validates;
    ExactlyOneOfTwo([a, b], v);
    assert [a, b][0] == a && [a, b][1] == b;
  }

  lemma {:induction false} NodesExact(v: Value)
    ensures Validates(TEXT_NODE, v) <==> v.Obj? && IsTag(v.fields, "text") && OnlyKeys(v.fields, ["type", "text"])
                                         && "text" in v.fields && v.fields["text"].Str? && v.fields["text"].s != ""
    ensures Validates(REF_NODE, v) <==> v.Obj? && IsTag(v.fields, "entity_ref") && OnlyKeys(v.fields, ["type", "ref_id"])
                                        && "ref_id" in v.fields && v.fields["ref_id"].Str? && v.fields["ref_id"].s != ""
    ensures Validates(PLACEHOLDER, v) <==> v.Obj? && IsTag(v.fields, "entity_ref") && OnlyKeys(v.fields, ["type"])
    ensures !(Validates(TEXT_NODE, v) && Validates(REF_NODE, v)) && !(Validates(TEXT_NODE, v) && Validates(PLACEHOLDER, v))
  {
    TwoKeyNode("text", "text", v);
    TwoKeyNode("entity_ref", "ref_id", v);
    PlaceholderIs(v);
  }

  lemma {:induction false} NodeExact(policy: BodyPolicy, v: Value)
    ensures NodeOk(policy, v) <==> ExactlyOne(NodeSchemas(policy), v) && NodeBeyond(policy, v)
  {
    hide Validates, ExactlyOne, IsUuid;
    NodesExact(v);
    OneOfOne(TEXT_NODE, v);
    OneOfTwo(TEXT_NODE, REF_NODE, v);
    OneOfTwo(TEXT_NODE, PLACEHOLDER, v);
    BlankIsNotUuid(v);
  }

  lemma BlankIsNotUuid(v: Value)
    ensures v.Obj? && "ref_id" in v.fields && v.fields["ref_id"].Str? && IsUuid(v.fields["ref_id"].s) ==> !IsBlank(v.fields["ref_id"].s)
    ensures IsBlank("")
  {
  }

  lemma UuidIsNotBlank(s: string)
    requires IsUuid(s)
    ensures !IsBlank(s)
  {
    if |s| == 36 { assert !Text.IsWhite(s[8]); }
    else if |s| == 32 { assert IsHex(s[0]) && !Text.IsWhite(s[0]); }
    else if |s| == 38 { assert !Text.IsWhite(s[0]); }
    else { assert s[0] == s[..9][0] && !Text.IsWhite(s[0]); }
  }

  /** The hook and the advertised schema agree on bodies, node by node, up to non-blank text and UUIDs. */
  lemma {:induction false} BodyExact(policy: BodyPolicy, body: Value)
    ensures BodyOk(policy, body) <==> Validates(BodySchema(policy), body) && BodyBeyond(policy, body)
  {
    if body.Arr? {
      forall i | 0 <= i < |body.items|
        ensures NodeOk(policy, body.items[i]) <==> Validates(ANY.(oneOf := OneOf(NodeSchemas(policy))), body.items[i]) && NodeBeyond(policy, body.items[i])
      {
        NodeExact(policy, body.items[i]);
      }
    }
    hide NodeOk, NodeBeyond, NodeSchemas;
  }

  // ── the weave ──────────────────────────────────────────────────────────

  function StoredRef(refId: string): Value {
    Obj(map["type" := Str("entity_ref"), "ref_id" := Str(refId)])
  }

  function WeaveNodes(nodes: seq<Value>, refId: string): (woven: seq<Value>)
    ensures |woven| == |nodes|
    ensures forall i :: 0 <= i < |nodes| ==> woven[i] == if IsRef(nodes[i]) then StoredRef(refId) else nodes[i]
  {
    seq(|nodes|, i requires 0 <= i < |nodes| => if IsRef(nodes[i]) then StoredRef(refId) else nodes[i])
  }

  /** `reference_existing_entity_data_payload`. */
  function Weave(current: Value, payload: Value, refId: string): Value {
    var data := if current.Obj? then current.fields else map[];
    if !payload.Obj? then Obj(data)
    else
      var body := Get(payload, "body");
      Obj(data["body" := Arr(if body.Some? && body.value.Arr? then WeaveNodes(body.value.items, refId) else [])])
  }

  /** `body_entity_ref_ids`. */
  function RefIds(nodes: seq<Value>): seq<string> {
    if nodes == [] then []
    else
      var last := nodes[|nodes| - 1];
      RefIds(nodes[..|nodes| - 1]) + if IsRef(last) && AsStr(Get(last, "ref_id")).Some? then [AsStr(Get(last, "ref_id")).value] else []
  }

  function Repeat(s: string, n: nat): seq<string> {
    if n == 0 then [] else Repeat(s, n - 1) + [s]
  }

  lemma {:induction false} WovenRefs(nodes: seq<Value>, refId: string)
    ensures RefIds(WeaveNodes(nodes, refId)) == Repeat(refId, CountRefs(nodes))
  {
    if nodes != [] {
      var n := |nodes| - 1;
      WovenRefs(nodes[..n], refId);
      assert WeaveNodes(nodes, refId)[..n] == WeaveNodes(nodes[..n], refId);
    }
  }

  /** A checked reference proposal weaves into a body the stored-body check accepts, with the one new reference
      where the placeholder stood, every text node as it was and where it was, and the rest of the entry's
      data untouched. */
  lemma WeaveIsValid(current: Value, payload: Value, refId: string)
    requires current.Obj? && Get(payload, "body").Some? && ReferenceBodyOk(Get(payload, "body").value) && IsUuid(refId)
    ensures var woven := Weave(current, payload, refId);
            var before, after := Get(payload, "body").value.items, Get(woven, "body").value;
            && BodyOk(TextOrExistingRef, after)
            && RefIds(after.items) == [refId]
            && |after.items| == |before|
            && (forall i :: 0 <= i < |before| ==> after.items[i] == if IsRef(before[i]) then StoredRef(refId) else before[i])
            && (forall k :: k != "body" ==> Get(woven, k) == Get(current, k))
  {
    var before := Get(payload, "body").value.items;
    var after := Get(Weave(current, payload, refId), "body").value;
    WovenRefs(before, refId);
    assert Repeat(refId, 1) == Repeat(refId, 0) + [refId] == [refId];
    UuidIsNotBlank(refId);
    forall i | 0 <= i < |after.items| ensures NodeOk(TextOrExistingRef, after.items[i]) {
      assert NodeOk(TextOrNewRef, before[i]);
    }
  }
}
