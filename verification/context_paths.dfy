/** Sanitation read along paths: which places of a tool result reach the language model, and what stands there. */
module ContextPaths {
  import opened Wrappers
  import opened Text
  import opened ContextValue

  /** None of the words that mark what must not be shown is in the key, in any case. */
  predicate Harmless(key: string) {
    var k := ToLower(key);
    && !Contains(k, "raw_ai_response") && !Contains(k, "raw_planner_response") && !Contains(k, "raw_answer_response")
    && !Contains(k, "api_key") && !Contains(k, "token") && !Contains(k, "authorization") && !Contains(k, "password")
    && !Contains(k, "secret") && !Contains(k, "session_token") && !Contains(k, "cookie") && !Contains(k, "raw_payload")
    && !Contains(k, "raw_ozon_payload") && !Contains(k, "raw_response") && !Contains(k, "sql")
    && !Contains(k, "query") && !Contains(k, "database") && !Contains(k, "table")
  }

  lemma RawWordsUnspaced()
    ensures Unspaced("raw_ai_response") && Unspaced("raw_planner_response") && Unspaced("raw_answer_response")
    ensures Unspaced("raw_payload") && Unspaced("raw_ozon_payload") && Unspaced("raw_response")
  {
  }

  lemma KeyWordsUnspaced()
    ensures Unspaced("api_key") && Unspaced("token") && Unspaced("authorization") && Unspaced("password")
    ensures Unspaced("secret") && Unspaced("session_token") && Unspaced("cookie")
  {
  }

  lemma DataWordsUnspaced()
    ensures Unspaced("sql") && Unspaced("query") && Unspaced("database") && Unspaced("table")
  {
  }

  lemma WordsUnspaced(i: nat)
    requires i < |FORBIDDEN_CONTEXT_KEYS|
    ensures Unspaced(FORBIDDEN_CONTEXT_KEYS[i])
  {
    RawWordsUnspaced();
    KeyWordsUnspaced();
    DataWordsUnspaced();
    hide Unspaced;
  }

  lemma ForbiddenWord(key: string, i: nat)
    requires i < |FORBIDDEN_CONTEXT_KEYS|
    ensures Contains(ToLower(TrimSpace(key)), FORBIDDEN_CONTEXT_KEYS[i])
       <==> Contains(ToLower(key), FORBIDDEN_CONTEXT_KEYS[i])
  {
    WordsUnspaced(i);
    TrimKeepsWords(key, FORBIDDEN_CONTEXT_KEYS[i]);
  }

  lemma HarmlessIff(key: string)
    ensures Harmless(key) <==> forall i | 0 <= i < 17 :: !Contains(ToLower(key), FORBIDDEN_CONTEXT_KEYS[i])
  {
    hide Contains, ToLower;
    var k, words := ToLower(key), FORBIDDEN_CONTEXT_KEYS;
    assert words[0] == "raw_ai_response" && words[1] == "raw_planner_response" && words[2] == "raw_answer_response";
    assert words[3] == "api_key" && words[4] == "token" && words[5] == "authorization" && words[6] == "password";
    assert words[7] == "secret" && words[8] == "session_token" && words[9] == "cookie" && words[10] == "raw_payload";
    assert words[11] == "raw_ozon_payload" && words[12] == "raw_response" && words[13] == "sql";
    assert words[14] == "query" && words[15] == "database" && words[16] == "table";
  }

  /** A key is forbidden exactly when it contains one of the words. */
  lemma ForbiddenIff(key: string)
    ensures IsForbiddenKey(key) <==> !Harmless(key)
  {
    HarmlessIff(key);
    hide Harmless, Contains, ToLower, TrimSpace;
    forall i: nat | i < 17
      ensures Contains(ToLower(TrimSpace(key)), FORBIDDEN_CONTEXT_KEYS[i])
         <==> Contains(ToLower(key), FORBIDDEN_CONTEXT_KEYS[i])
    {
      ForbiddenWord(key, i);
    }
    assert |FORBIDDEN_CONTEXT_KEYS| == 17;
  }

  // ---------------------------------------------------------------- paths

  datatype Step = Key(key: string) | Place(index: nat)

  /** What a path leads to. A foreign value is what its encoding reads back as. */
  function At(v: Value, path: seq<Step>): Option<Value>
    decreases |path|, v
  {
    if v.Foreign? then At(v.image, path)
    else if path == [] then Some(v)
    else
      match path[0]
      case Key(k) => if v.Object? && k in v.fields.m then At(v.fields.m[k], path[1..]) else None
      case Place(i) =>
        if v.Rows? && i < |v.rows| then At(Object(v.rows[i]), path[1..])
        else if v.List? && i < |v.items| then At(v.items[i], path[1..])
        else None
  }

  /** Harmless keys, and places within the item cap. */
  predicate Open(path: seq<Step>, items: nat) {
    forall i | 0 <= i < |path| ::
      match path[i]
      case Key(k) => Harmless(k)
      case Place(n) => n < items
  }

  predicate EndsInKey(path: seq<Step>) {
    path != [] && path[|path| - 1].Key?
  }

  lemma {:induction false} SanitizedIsNotForeign(v: Value, lim: Limits)
    ensures !Sanitize(v, lim).Foreign?
    decreases v
  {
    if v.Foreign? {
      SanitizedIsNotForeign(v.image, lim);
    }
  }

  lemma {:induction false} NothingUnderNull(v: Value, lim: Limits, path: seq<Step>)
    requires Sanitize(v, lim) == Null && path != []
    ensures At(v, path).None?
    decreases v
  {
    if v.Foreign? {
      NothingUnderNull(v.image, lim, path);
    }
  }

  /** What should be left at a path: what an open path leads to, sanitized; but a field that would be null goes. */
  function Kept(v: Value, lim: Limits, path: seq<Step>): Option<Value> {
    if !Open(path, lim.items) || At(v, path).None? then None
    else if EndsInKey(path) && Sanitize(At(v, path).value, lim) == Null then None
    else Some(Sanitize(At(v, path).value, lim))
  }

  /** Sanitation keeps exactly what open paths lead to, sanitized, in its place. */
  lemma {:induction false} SanitizedAt(v: Value, lim: Limits, path: seq<Step>)
    ensures At(Sanitize(v, lim), path) == Kept(v, lim, path)
    decreases |path|, v
  {
    if v.Foreign? {
      SanitizedAt(v.image, lim, path);
    } else if path == [] {
      SanitizedIsNotForeign(v, lim);
    } else {
      OpenStep(path, lim.items);
      match path[0]
      case Key(k) => SanitizedUnderKey(v, lim, path);
      case Place(i) => SanitizedUnderPlace(v, lim, path);
    }
  }

  lemma OpenStep(path: seq<Step>, items: nat)
    requires path != []
    ensures Open(path, items)
       <==> Open(path[1..], items) && match path[0] case Key(k) => Harmless(k) case Place(n) => n < items
    ensures EndsInKey(path) <==> if |path| == 1 then path[0].Key? else EndsInKey(path[1..])
  {
    hide Harmless;
    var rest := path[1..];
    if Open(rest, items) && match path[0] case Key(k) => Harmless(k) case Place(n) => n < items {
      forall i | 0 <= i < |path|
        ensures match path[i] case Key(k) => Harmless(k) case Place(n) => n < items
      {
        assert i > 0 ==> path[i] == rest[i - 1];
      }
    }
    if Open(path, items) {
      forall i | 0 <= i < |rest|
        ensures match rest[i] case Key(k) => Harmless(k) case Place(n) => n < items
      {
        assert path[i + 1] == rest[i];
      }
    }
  }

  lemma KeptUnderKey(v: Value, lim: Limits, path: seq<Step>)
    requires !v.Foreign? && path != [] && path[0].Key?
    ensures var k, rest := path[0].key, path[1..];
      Kept(v, lim, path)
      == if !v.Object? || k !in v.fields.m || !Harmless(k) then None
         else if rest == [] && Sanitize(v.fields.m[k], lim) == Null then None
         else Kept(v.fields.m[k], lim, rest)
  {
    hide Harmless, Open, EndsInKey;
    OpenStep(path, lim.items);
    if v.Object? && path[0].key in v.fields.m && path[1..] == [] {
      AtNothing(v.fields.m[path[0].key], lim);
    }
    hide Sanitize;
  }

  lemma {:induction false} AtNothing(v: Value, lim: Limits)
    ensures At(v, []).Some? && Sanitize(At(v, []).value, lim) == Sanitize(v, lim)
    decreases v
  {
    if v.Foreign? {
      AtNothing(v.image, lim);
    }
  }

  lemma AtUnderKey(v: Value, lim: Limits, path: seq<Step>)
    requires !v.Foreign? && path != [] && path[0].Key?
    ensures var k, rest := path[0].key, path[1..];
      At(Sanitize(v, lim), path)
      == if !v.Object? || k !in v.fields.m || !Harmless(k) || Sanitize(v.fields.m[k], lim) == Null then None
         else At(Sanitize(v.fields.m[k], lim), rest)
  {
    SanitizedObject(v, lim);
    SanitizedIsNotForeign(v, lim);
    ForbiddenIff(path[0].key);
    if v.Object? {
      SanitizedField(v.fields, lim, path[0].key);
    }
    hide Harmless, IsForbiddenKey, SanitizeFields, Sanitize;
  }

  lemma {:induction false} SanitizedUnderKey(v: Value, lim: Limits, path: seq<Step>)
    requires !v.Foreign? && path != [] && path[0].Key?
    ensures At(Sanitize(v, lim), path) == Kept(v, lim, path)
    decreases |path|, v, 0
  {
    KeptUnderKey(v, lim, path);
    AtUnderKey(v, lim, path);
    if v.Object? && path[0].key in v.fields.m {
      var field, rest := v.fields.m[path[0].key], path[1..];
      SanitizedAt(field, lim, rest);
      if Sanitize(field, lim) == Null && rest != [] {
        NothingUnderNull(field, lim, rest);
      }
    }
    hide Harmless, Open, Sanitize, At, EndsInKey;
  }

  lemma SanitizedObject(v: Value, lim: Limits)
    requires !v.Foreign?
    ensures if v.Object? then Sanitize(v, lim) == Object(SanitizeFields(v.fields, lim)) else !Sanitize(v, lim).Object?
  {
    hide SanitizeFields;
  }

  lemma {:induction false} SanitizedUnderPlace(v: Value, lim: Limits, path: seq<Step>)
    requires !v.Foreign? && path != [] && path[0].Place?
    ensures At(Sanitize(v, lim), path) == Kept(v, lim, path)
    decreases |path|, v, 0
  {
    var i, rest := path[0].index, path[1..];
    OpenStep(path, lim.items);
    if v.Rows? && i < |v.rows| {
      SanitizedAt(Object(v.rows[i]), lim, rest);
    }
    if v.List? && i < |v.items| {
      SanitizedAt(v.items[i], lim, rest);
    }
    hide Harmless, IsForbiddenKey, Open, SanitizeFields;
  }

  /** Whatever can be reached in a sanitized value is reached by harmless keys. */
  lemma OnlyHarmlessKeysRemain(v: Value, lim: Limits, path: seq<Step>, i: nat)
    requires At(Sanitize(v, lim), path).Some? && i < |path| && path[i].Key?
    ensures Harmless(path[i].key)
  {
    SanitizedAt(v, lim, path);
  }

  /** What an end value becomes: texts are cut at the cap and marked, numbers and truth values stay. */
  lemma SanitizedLeaf(v: Value, lim: Limits)
    ensures v.Null? || v.Bool? || v.Int? || v.Float? || v.Float32? || v.Intent? ==> Sanitize(v, lim) == v
    ensures v.Text? && |v.s| <= lim.text ==> Sanitize(v, lim) == v
    ensures v.Text? && |v.s| > lim.text ==> Sanitize(v, lim) == Text(v.s[..lim.text] + "...[truncated]")
    ensures v.Unencodable? ==> Sanitize(v, lim) == Text(v.printed)
    ensures v.Object? ==> Sanitize(v, lim).Object?
    ensures v.Rows? ==> Sanitize(v, lim).Rows? && |Sanitize(v, lim).rows| <= |v.rows|
    ensures v.List? ==> Sanitize(v, lim).List? && |Sanitize(v, lim).items| <= |v.items|
  {
  }
}
