/** Rewriting a tool's JSON Schema for Gemini, which rejects some keywords. */
module GeminiSchema {
  import opened Prelude

  datatype Json =
    | JNull | JBool(b: bool) | JNumber(n: real) | JString(s: string)
    | JArray(items: seq<Json>) | JObject(fields: map<string, Json>)

  const FORBIDDEN: set<string> := {"$schema", "additionalProperties", "$id", "$ref", "$comment"}

  function Field(j: Json, k: string): Json
    requires j.JObject? && k in j.fields
    decreases j, 0
  {
    var v := j.fields[k];
    if !v.JObject? then v
    else if k == "properties" then JObject(map p | p in v.fields :: Sanitize(v.fields[p]))
    else if k == "items" then Sanitize(v)
    else v
  }

  // Schema nodes are reached through the object-valued properties and items of other nodes.
  function Sanitize(j: Json): Json
    decreases j, 1
  {
    if !j.JObject? then j
    else JObject(map k | k in j.fields && k !in FORBIDDEN :: Field(j, k))
  }

  method SanitizeProperties(v: Json) returns (clean: Json)
    requires v.JObject?
    ensures clean == JObject(map p | p in v.fields :: Sanitize(v.fields[p]))
    decreases v
  {
    var props: map<string, Json> := map[];
    var names := v.fields.Keys;
    while names != {}
      invariant names <= v.fields.Keys
      invariant forall p :: p in props <==> p in v.fields && p !in names
      invariant forall p | p in props :: props[p] == Sanitize(v.fields[p])
      decreases |names|
    {
      var p :| p in names;
      names := names - {p};
      var schema := v.fields[p];
      if schema.JObject? {
        schema := SanitizeSchema(schema);
      }
      props := props[p := schema];
    }
    assert props == map p | p in v.fields :: Sanitize(v.fields[p]);
    clean := JObject(props);
  }

  // The recursion over one level of maps; property names are never filtered.
  method SanitizeSchema(j: Json) returns (clean: Json)
    requires j.JObject?
    ensures clean == Sanitize(j)
    decreases j
  {
    var fields: map<string, Json> := map[];
    var keys := j.fields.Keys;
    while keys != {}
      invariant keys <= j.fields.Keys
      invariant forall k :: k in fields <==> k in j.fields && k !in keys && k !in FORBIDDEN
      invariant forall k | k in fields :: fields[k] == Field(j, k)
      decreases |keys|
    {
      var k :| k in keys;
      keys := keys - {k};
      var v := j.fields[k];
      if k in FORBIDDEN {
        continue;
      }
      if k == "properties" && v.JObject? {
        var props := SanitizeProperties(v);
        fields := fields[k := props];
      } else if k == "items" && v.JObject? {
        var items := SanitizeSchema(v);
        fields := fields[k := items];
      } else {
        fields := fields[k := v];
      }
    }
    assert fields == Sanitize(j).fields;
    clean := JObject(fields);
  }

  // The nil schema stays nil.
  method SanitizeOptional(schema: Option<map<string, Json>>) returns (clean: Option<map<string, Json>>)
    ensures schema.None? <==> clean.None?
    ensures schema.Some? ==> JObject(clean.value) == Sanitize(JObject(schema.value))
  {
    if schema.None? {
      return None;
    }
    var j := SanitizeSchema(JObject(schema.value));
    return Some(j.fields);
  }

  // ---------------------------------------------------------------- schema nodes by their path

  datatype Step = Property(name: string) | Items

  function Child(j: Json, s: Step): Option<Json> {
    if !j.JObject? then None
    else match s
      case Property(name) =>
        if "properties" in j.fields && j.fields["properties"].JObject? && name in j.fields["properties"].fields
           && j.fields["properties"].fields[name].JObject?
        then Some(j.fields["properties"].fields[name]) else None
      case Items =>
        if "items" in j.fields && j.fields["items"].JObject? then Some(j.fields["items"]) else None
  }

  // The schema node at a path of properties and items.
  function At(j: Json, path: seq<Step>): Option<Json> {
    if path == [] then Some(j)
    else match Child(j, path[0])
      case None => None
      case Some(c) => At(c, path[1..])
  }

  // No forbidden keyword on any schema node.
  ghost predicate Accepted(j: Json) {
    forall path | At(j, path).Some? && At(j, path).value.JObject? :: At(j, path).value.fields.Keys !! FORBIDDEN
  }

  lemma {:induction false} PropertiesOfSanitized(j: Json)
    requires j.JObject? && "properties" in j.fields
    ensures var v := j.fields["properties"];
      && "properties" in Sanitize(j).fields
      && Sanitize(j).fields["properties"] ==
           if v.JObject? then JObject(map p | p in v.fields :: Sanitize(v.fields[p])) else v
  {
    assert "properties" !in FORBIDDEN;
    assert Sanitize(j).fields["properties"] == Field(j, "properties");
  }

  lemma {:induction false} ItemsOfSanitized(j: Json)
    requires j.JObject? && "items" in j.fields
    ensures "items" in Sanitize(j).fields && Sanitize(j).fields["items"] == Sanitize(j.fields["items"])
  {
    assert "items" !in FORBIDDEN;
    assert Sanitize(j).fields["items"] == Field(j, "items");
  }

  lemma {:induction false} SameKeys(j: Json)
    requires j.JObject?
    ensures Sanitize(j).JObject? && Sanitize(j).fields.Keys <= j.fields.Keys
  {}

  lemma {:induction false} SanitizedIsObject(j: Json)
    ensures Sanitize(j).JObject? <==> j.JObject?
    ensures j.JObject? ==> Sanitize(j).fields.Keys !! FORBIDDEN
  {}

  lemma {:induction false} ChildOfSanitized(j: Json, s: Step)
    ensures Child(Sanitize(j), s) == match Child(j, s) case None => None case Some(c) => Some(Sanitize(c))
  {
    hide Field;
    if j.JObject? {
      SameKeys(j);
      match s {
        case Property(name) =>
          if "properties" in j.fields {
            PropertiesOfSanitized(j);
            hide Sanitize;
            var v := j.fields["properties"];
            if v.JObject? && name in v.fields {
              SanitizedIsObject(v.fields[name]);
            }
          }
        case Items =>
          if "items" in j.fields {
            ItemsOfSanitized(j);
            SanitizedIsObject(j.fields["items"]);
          }
      }
    }
  }

  /** Rewriting commutes with walking to a schema node: every node stays in place and is rewritten itself. */
  lemma {:induction false} NodesStay(j: Json, path: seq<Step>)
    ensures At(Sanitize(j), path) == match At(j, path) case None => None case Some(c) => Some(Sanitize(c))
    decreases |path|
  {
    hide Sanitize, Child;
    if path == [] {
    } else {
      ChildOfSanitized(j, path[0]);
      if Child(j, path[0]).Some? {
        NodesStay(Child(j, path[0]).value, path[1..]);
      }
    }
  }

  /**
   * At every schema node the forbidden keywords are gone, every property name
   * is kept, even one spelled like a forbidden keyword, and every other field is as before.
   */
  lemma {:induction false} NodeFields(j: Json, path: seq<Step>)
    requires At(j, path).Some? && At(j, path).value.JObject?
    ensures var before := At(j, path).value;
      var after := At(Sanitize(j), path);
      && after.Some? && after.value.JObject?
      && after.value.fields.Keys == before.fields.Keys - FORBIDDEN
      && (forall k | k in after.value.fields && k != "properties" && k != "items" :: after.value.fields[k] == before.fields[k])
      && ("properties" in before.fields && before.fields["properties"].JObject? ==>
            && after.value.fields["properties"].JObject?
            && after.value.fields["properties"].fields.Keys == before.fields["properties"].fields.Keys)
  {
    NodesStay(j, path);
    var before := At(j, path).value;
    assert Sanitize(before).fields.Keys == before.fields.Keys - FORBIDDEN;
  }

  /** The result carries no forbidden keyword on any schema node. */
  lemma {:induction false} ResultAccepted(j: Json)
    ensures Accepted(Sanitize(j))
  {
    hide Sanitize;
    forall path | At(Sanitize(j), path).Some? && At(Sanitize(j), path).value.JObject?
      ensures At(Sanitize(j), path).value.fields.Keys !! FORBIDDEN
    {
      NodesStay(j, path);
      SanitizedIsObject(At(j, path).value);
    }
  }

  lemma {:induction false} AcceptedChild(j: Json, s: Step)
    requires Accepted(j) && Child(j, s).Some?
    ensures Accepted(Child(j, s).value)
  {
    var c := Child(j, s).value;
    forall path | At(c, path).Some? && At(c, path).value.JObject?
      ensures At(c, path).value.fields.Keys !! FORBIDDEN
    {
      var whole := [s] + path;
      assert whole[0] == s && whole[1..] == path;
      assert At(j, whole) == At(c, path);
    }
  }

  // An accepted schema is left exactly as it is.
  lemma {:induction false} AcceptedUnchanged(j: Json)
    requires Accepted(j)
    ensures Sanitize(j) == j
    decreases j
  {
    if j.JObject? {
      assert At(j, []) == Some(j);
      forall k | k in j.fields
        ensures Field(j, k) == j.fields[k]
      {
        var v := j.fields[k];
        if k == "properties" && v.JObject? {
          forall p | p in v.fields
            ensures Sanitize(v.fields[p]) == v.fields[p]
          {
            if v.fields[p].JObject? {
              assert Child(j, Property(p)) == Some(v.fields[p]);
              AcceptedChild(j, Property(p));
              AcceptedUnchanged(v.fields[p]);
            }
          }
          assert (map p | p in v.fields :: Sanitize(v.fields[p])) == v.fields;
        } else if k == "items" && v.JObject? {
          assert Child(j, Items) == Some(v);
          AcceptedChild(j, Items);
          AcceptedUnchanged(v);
        }
      }
      assert Sanitize(j).fields == j.fields;
    }
  }

  /** A schema is left alone exactly when no schema node carries a forbidden keyword; so rewriting twice changes nothing. */
  lemma {:induction false} UnchangedWhen(j: Json)
    ensures Sanitize(j) == j <==> Accepted(j)
    ensures Sanitize(Sanitize(j)) == Sanitize(j)
  {
    ResultAccepted(j);
    AcceptedUnchanged(Sanitize(j));
    if Accepted(j) {
      AcceptedUnchanged(j);
    }
  }

  /** The five keywords that are dropped, and only these, whatever they hold. */
  lemma {:induction false} DroppedKeywords(fields: map<string, Json>, k: string)
    requires k in fields
    ensures k !in Sanitize(JObject(fields)).fields <==>
      k == "$schema" || k == "additionalProperties" || k == "$id" || k == "$ref" || k == "$comment"
  {}
}
