/** What becomes of the state when a step's value is folded into it, key by key. */
module StateFolding {
  import opened Base
  import opened JsonValues
  import opened Runtime

  /** `after` has the entries of `winner`, and of `loser` those of other keys that satisfy `kept`. */
  predicate Overlays(winner: map<string, Json>, loser: map<string, Json>, kept: string -> bool,
                     after: map<string, Json>)
  {
    && (forall k :: k in winner ==> k in after && after[k] == winner[k])
    && (forall k :: k in loser && k !in winner && kept(k) ==> k in after && after[k] == loser[k])
    && (forall k :: k in after ==> k in winner || (k in loser && kept(k)))
  }

  /** The keys of the request and of the runtime that a transform must not lose. */
  predicate IsRuntimeKey(k: string) {
    k == "async" || k == "data" || k == "originalRequest" || k == "query" || k == "params" || k == "body"
    || k == "headers" || k == "cookies" || k == "method" || k == "path" || k == "ip" || k == "content_type"
  }

  function FieldsOf(v: Json): map<string, Json> { if v.Object? then v.fields else map[] }

  /** Merging lets the value win key by key if both are objects; a transform that is not last keeps the runtime keys it
      does not set; otherwise the value replaces the state, and read-only middleware leaves it. */
  predicate Folds(state: Json, value: Json, behavior: Behavior, isLast: bool, after: Json) {
    if behavior == ReadOnly then after == state
    else if behavior == Merge && state.Object? && value.Object? then
      after.Object? && Overlays(value.fields, state.fields, k => true, after.fields)
    else if behavior == Transform && !isLast && value.Object? then
      after.Object? && Overlays(value.fields, FieldsOf(state), k => IsRuntimeKey(k), after.fields)
    else after == value
  }

  lemma RuntimeKeysListed(k: string)
    ensures k in RUNTIME_KEYS <==> IsRuntimeKey(k)
  {
  }

  /** The state after a step is the value folded in as its middleware's behavior says. */
  lemma UpdateFolds(state: Json, value: Json, behavior: Behavior, isLast: bool)
    ensures Folds(state, value, behavior, isLast, UpdateState(state, value, behavior, isLast))
  {
    forall k ensures k in RUNTIME_KEYS <==> IsRuntimeKey(k) { RuntimeKeysListed(k); }
    hide IsRuntimeKey;
  }

  /** Folding determines the state: there is only one that meets the description. */
  lemma FoldsOnce(state: Json, value: Json, behavior: Behavior, isLast: bool, a: Json, b: Json)
    requires Folds(state, value, behavior, isLast, a) && Folds(state, value, behavior, isLast, b)
    ensures a == b
  {
    hide IsRuntimeKey;
    if a.Object? && b.Object? {
      assert a.fields.Keys == b.fields.Keys;
      assert a.fields == b.fields;
    }
  }

  // ----- data -----

  /** The value stands under `data` and the target's name; everything else of the state and of its `data` object, so far
      as they are objects, is as it was. */
  predicate Wraps(state: Json, target: string, value: Json, after: Json) {
    && after.Object? && "data" in after.fields && after.fields["data"].Object?
    && Overlays(map["data" := after.fields["data"]], FieldsOf(state), k => true, after.fields)
    && Overlays(map[target := value],
                if "data" in FieldsOf(state) then FieldsOf(FieldsOf(state)["data"]) else map[],
                k => true, after.fields["data"].fields)
  }

  lemma DataWraps(state: Json, target: string, value: Json)
    ensures Wraps(state, target, value, WrapData(state, target, value))
  {
  }

  // ----- errors and names -----

  /** The state is an object whose `errors` begin with an object of that type. */
  predicate Carries(v: Json, t: string) {
    && v.Object? && "errors" in v.fields && v.fields["errors"].Array? && v.fields["errors"].items != []
    && var first := v.fields["errors"].items[0];
       first.Object? && "type" in first.fields && first.fields["type"] == String(t)
  }

  lemma ErrorTypeMeans(v: Json, t: string)
    ensures ErrorType(v) == Some(t) <==> Carries(v, t)
  {
  }

  /** With an `@error` name, the first error takes it as its type if it is an object; nothing else changes. */
  predicate Retypes(v: Json, name: Option<string>, after: Json) {
    if name.Some? && v.Object? && "errors" in v.fields && v.fields["errors"].Array? && v.fields["errors"].items != []
       && v.fields["errors"].items[0].Object?
    then
      var items := v.fields["errors"].items;
      after == Object(v.fields["errors" :=
          Array([Object(items[0].fields["type" := String(name.value)])] + items[1..])])
    else after == v
  }

  lemma OverrideRetypes(v: Json, name: Option<string>)
    ensures Retypes(v, name, OverrideErrorType(v, name))
  {
    if name.Some? && v.Object? && "errors" in v.fields && v.fields["errors"].Array?
       && v.fields["errors"].items != [] && v.fields["errors"].items[0].Object? {
      var items := v.fields["errors"].items;
      var first := Object(items[0].fields["type" := String(name.value)]);
      assert items[0 := first] == [first] + items[1..];
    }
  }

  /** An automatic result name leaves no trace. */
  predicate Drops(v: Json, key: string, after: Json) {
    if v.Object? then
      && after.Object? && after.fields.Keys == v.fields.Keys - {key}
      && forall k :: k in after.fields ==> after.fields[k] == v.fields[k]
    else after == v
  }

  lemma RemoveDrops(v: Json, key: string)
    ensures Drops(v, key, Remove(v, key))
  {
  }
}
