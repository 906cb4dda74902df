/** Tool output as the chat component sees it, and its sanitation before it reaches the language model. */
module ContextValue {
  import opened Text

  /** A value a tool may return. `Rows` is a list whose elements are all objects; `Foreign` is any other
      Go value, carried with the value its JSON encoding decodes to; `Unencodable` is one JSON cannot
      encode, carried with its printed form. */
  datatype Value =
    | Null
    | Bool(b: bool)
    | Int(n: int)
    | Float(r: real)
    | Float32(x: real)
    | Intent(name: string)
    | Text(s: string)
    | Object(fields: Fields)
    | Rows(rows: seq<Fields>)
    | List(items: seq<Value>)
    | Foreign(image: Value)
    | Unencodable(printed: string)

  datatype Fields = Fields(m: map<string, Value>)

  const EMPTY_FIELDS := Fields(map[])

  datatype Limits = Limits(text: nat, items: nat)

  const FORBIDDEN_CONTEXT_KEYS: seq<string> := [
    "raw_ai_response", "raw_planner_response", "raw_answer_response", "api_key", "token", "authorization",
    "password", "secret", "session_token", "cookie", "raw_payload", "raw_ozon_payload", "raw_response",
    "sql", "query", "database", "table"
  ]

  const TRUNCATION_SUFFIX := "...[truncated]"

  predicate IsForbiddenKey(key: string) {
    ContainsAny(ToLower(TrimSpace(key)), FORBIDDEN_CONTEXT_KEYS)
  }

  function Min(a: nat, b: nat): nat {
    if a < b then a else b
  }

  function TruncateText(s: string, cap: nat): string {
    if |s| <= cap then s else s[..cap] + TRUNCATION_SUFFIX
  }

  function Sanitize(v: Value, lim: Limits): Value
    decreases v
  {
    match v
    case Object(fields) => Object(SanitizeFields(fields, lim))
    case Rows(rows) =>
      Rows(seq(Min(|rows|, lim.items), i requires 0 <= i < |rows| => SanitizeFields(rows[i], lim)))
    case List(items) =>
      List(seq(Min(|items|, lim.items), i requires 0 <= i < |items| => Sanitize(items[i], lim)))
    case Text(s) => Text(TruncateText(s, lim.text))
    case Foreign(image) => Sanitize(image, lim)
    case Unencodable(printed) => Text(printed)
    case _ => v
  }

  function SanitizeFields(f: Fields, lim: Limits): Fields
    decreases f
  {
    Fields(map k | k in f.m && !IsForbiddenKey(k) && Sanitize(f.m[k], lim) != Null :: Sanitize(f.m[k], lim))
  }

  /** Every printed form that sanitation keeps, outside forbidden keys and within the item cap,
      satisfies `ok`. Printed forms are those of values JSON cannot encode. */
  predicate AllPrinted(v: Value, items: nat, ok: string -> bool)
    decreases v
  {
    match v
    case Object(fields) => AllPrintedFields(fields, items, ok)
    case Rows(rows) => forall i | 0 <= i < |rows| :: i < items ==> AllPrintedFields(rows[i], items, ok)
    case List(list) => forall i | 0 <= i < |list| :: i < items ==> AllPrinted(list[i], items, ok)
    case Foreign(image) => AllPrinted(image, items, ok)
    case Unencodable(printed) => ok(printed)
    case _ => true
  }

  predicate AllPrintedFields(f: Fields, items: nat, ok: string -> bool)
    decreases f
  {
    forall k | k in f.m :: !IsForbiddenKey(k) ==> AllPrinted(f.m[k], items, ok)
  }

  /** Printed forms within the cap, or cut to it already. */
  function Settled(cap: nat): string -> bool {
    printed => |printed| <= cap || printed[cap..] == TRUNCATION_SUFFIX
  }

  function NoLonger(cap: nat): string -> bool {
    printed => |printed| <= cap
  }

  predicate Tighter(a: Limits, b: Limits) {
    a.text <= b.text && a.items <= b.items
  }

  lemma TruncateTwice(s: string, inner: nat, outer: nat)
    requires outer <= inner
    ensures TruncateText(TruncateText(s, inner), outer) == TruncateText(s, outer)
  {
    if |s| > inner {
      assert TruncateText(s, inner)[..outer] == s[..outer];
    }
  }

  /** Whether a value vanishes from its object does not depend on the limits, or on having been sanitized. */
  lemma {:induction false} NullStays(v: Value, lim: Limits, again: Limits)
    ensures Sanitize(Sanitize(v, lim), again) == Null <==> Sanitize(v, again) == Null
    ensures Sanitize(v, lim) == Null <==> Sanitize(v, again) == Null
    decreases v
  {
    if v.Foreign? {
      NullStays(v.image, lim, again);
    }
  }

  /** Sanitizing with some limits and then with tighter ones is sanitizing once with the tighter ones,
      exactly when every kept printed form is within the tighter text cap or cut to it already. Equal
      limits give idempotence. */
  lemma {:induction false} SanitizeCompose(v: Value, tight: Limits, loose: Limits)
    requires Tighter(tight, loose)
    ensures Sanitize(Sanitize(v, loose), tight) == Sanitize(v, tight)
           <==> AllPrinted(v, tight.items, Settled(tight.text))
    decreases v
  {
    match v
    case Object(fields) => SanitizeFieldsCompose(fields, tight, loose);
    case Rows(rows) =>
      forall i | 0 <= i < |rows| {
        SanitizeFieldsCompose(rows[i], tight, loose);
      }
      var twice, once := Sanitize(Sanitize(v, loose), tight), Sanitize(v, tight);
      assert |twice.rows| == |once.rows| == Min(|rows|, tight.items);
      assert forall i | 0 <= i < |once.rows| ::
          twice.rows[i] == SanitizeFields(SanitizeFields(rows[i], loose), tight)
          && once.rows[i] == SanitizeFields(rows[i], tight);
    case List(items) =>
      forall i | 0 <= i < |items| {
        SanitizeCompose(items[i], tight, loose);
      }
      var twice, once := Sanitize(Sanitize(v, loose), tight), Sanitize(v, tight);
      assert |twice.items| == |once.items| == Min(|items|, tight.items);
      assert forall i | 0 <= i < |once.items| ::
          twice.items[i] == Sanitize(Sanitize(items[i], loose), tight) && once.items[i] == Sanitize(items[i], tight);
    case Text(s) => TruncateTwice(s, loose.text, tight.text);
    case Foreign(image) => SanitizeCompose(image, tight, loose);
    case Unencodable(printed) =>
    case _ =>
  }

  lemma {:induction false} SanitizeFieldsCompose(f: Fields, tight: Limits, loose: Limits)
    requires Tighter(tight, loose)
    ensures SanitizeFields(SanitizeFields(f, loose), tight) == SanitizeFields(f, tight)
       <==> AllPrintedFields(f, tight.items, Settled(tight.text))
    decreases f
  {
    var twice, once := SanitizeFields(SanitizeFields(f, loose), tight).m, SanitizeFields(f, tight).m;
    forall k | k in f.m && !IsForbiddenKey(k)
      ensures k in twice <==> k in once
      ensures k in once ==> twice[k] == Sanitize(Sanitize(f.m[k], loose), tight)
      ensures (k in once ==> twice[k] == once[k]) <==> AllPrinted(f.m[k], tight.items, Settled(tight.text))
    {
      hide AllPrinted, IsForbiddenKey;
      SanitizeCompose(f.m[k], tight, loose);
      NullStays(f.m[k], loose, tight);
      if Sanitize(f.m[k], tight) == Null {
        NullPrintsNothing(f.m[k], tight, Settled(tight.text));
      }
    }
    assert forall k | k in twice || k in once :: k in f.m && !IsForbiddenKey(k);
    assert twice.Keys == once.Keys;
  }

  lemma {:induction false} NullPrintsNothing(v: Value, lim: Limits, ok: string -> bool)
    requires Sanitize(v, lim) == Null
    ensures AllPrinted(v, lim.items, ok)
    decreases v
  {
    if v.Foreign? {
      NullPrintsNothing(v.image, lim, ok);
    }
  }

  /** The law fails for a value JSON cannot encode: its printed form is passed through whole the first
      time and cut the second time. */
  lemma PrintedFormEscapesTheCap()
    ensures exists v, lim :: Sanitize(Sanitize(v, lim), lim) != Sanitize(v, lim)
  {
    var v, lim := Unencodable("0123456789"), Limits(4, 20);
    SanitizeCompose(v, lim, lim);
    assert Sanitize(Sanitize(v, lim), lim) != Sanitize(v, lim);
  }

  /** What the language model may see: no forbidden key at any depth, no null field, no list longer than
      the item cap, no text longer than `cap`. */
  predicate Clean(v: Value, items: nat, cap: nat)
    decreases v
  {
    match v
    case Object(fields) => CleanFields(fields, items, cap)
    case Rows(rows) => |rows| <= items && forall i | 0 <= i < |rows| :: CleanFields(rows[i], items, cap)
    case List(list) => |list| <= items && forall i | 0 <= i < |list| :: Clean(list[i], items, cap)
    case Text(s) => |s| <= cap
    case Foreign(_) => false
    case Unencodable(_) => false
    case _ => true
  }

  predicate CleanFields(f: Fields, items: nat, cap: nat)
    decreases f
  {
    forall k | k in f.m :: !IsForbiddenKey(k) && f.m[k] != Null && Clean(f.m[k], items, cap)
  }

  /** Sanitized output is clean, with texts at most the cap plus the suffix, exactly when every kept
      printed form is itself that short; with a cap large enough for them it is always clean. */
  lemma {:induction false} SanitizeCleans(v: Value, lim: Limits, cap: nat)
    requires lim.text + |TRUNCATION_SUFFIX| <= cap
    ensures Clean(Sanitize(v, lim), lim.items, cap) <==> AllPrinted(v, lim.items, NoLonger(cap))
    decreases v
  {
    match v
    case Object(fields) => SanitizeFieldsCleans(fields, lim, cap);
    case Rows(rows) =>
      var out := Sanitize(v, lim).rows;
      forall i | 0 <= i < Min(|rows|, lim.items)
        ensures CleanFields(out[i], lim.items, cap) <==> AllPrintedFields(rows[i], lim.items, NoLonger(cap))
      {
        SanitizeFieldsCleans(rows[i], lim, cap);
      }
    case List(items) =>
      var out := Sanitize(v, lim).items;
      forall i | 0 <= i < Min(|items|, lim.items)
        ensures Clean(out[i], lim.items, cap) <==> AllPrinted(items[i], lim.items, NoLonger(cap))
      {
        SanitizeCleans(items[i], lim, cap);
      }
    case Foreign(image) => SanitizeCleans(image, lim, cap);
    case _ =>
  }

  lemma {:induction false} SanitizeFieldsCleans(f: Fields, lim: Limits, cap: nat)
    requires lim.text + |TRUNCATION_SUFFIX| <= cap
    ensures CleanFields(SanitizeFields(f, lim), lim.items, cap) <==> AllPrintedFields(f, lim.items, NoLonger(cap))
    decreases f
  {
    var out := SanitizeFields(f, lim).m;
    forall k | k in f.m && !IsForbiddenKey(k)
      ensures k in out ==> out[k] == Sanitize(f.m[k], lim) != Null
      ensures (k in out ==> Clean(out[k], lim.items, cap)) <==> AllPrinted(f.m[k], lim.items, NoLonger(cap))
    {
      SanitizeCleans(f.m[k], lim, cap);
      if Sanitize(f.m[k], lim) == Null {
        NullPrintsNothing(f.m[k], lim, NoLonger(cap));
      }
    }
    assert forall k | k in out :: k in f.m && !IsForbiddenKey(k);
  }

  /** Two values that agree everywhere except on what is stored under forbidden keys. */
  predicate SameButForbidden(v: Value, w: Value)
    decreases v
  {
    match v
    case Object(fields) => w.Object? && SameFieldsButForbidden(fields, w.fields)
    case Rows(rows) =>
      w.Rows? && |rows| == |w.rows| && forall i | 0 <= i < |rows| :: SameFieldsButForbidden(rows[i], w.rows[i])
    case List(items) =>
      w.List? && |items| == |w.items| && forall i | 0 <= i < |items| :: SameButForbidden(items[i], w.items[i])
    case Foreign(image) => w.Foreign? && SameButForbidden(image, w.image)
    case _ => v == w
  }

  predicate SameFieldsButForbidden(f: Fields, g: Fields)
    decreases f
  {
    && (forall k | k in f.m && !IsForbiddenKey(k) :: k in g.m && SameButForbidden(f.m[k], g.m[k]))
    && (forall k | k in g.m && !IsForbiddenKey(k) :: k in f.m)
  }

  /** Nothing stored under a forbidden key, at any depth, has any influence on the sanitized output. */
  lemma {:induction false} ForbiddenValuesDoNotLeak(v: Value, w: Value, lim: Limits)
    requires SameButForbidden(v, w)
    ensures Sanitize(v, lim) == Sanitize(w, lim)
    decreases v
  {
    match v
    case Object(fields) => ForbiddenFieldsDoNotLeak(fields, w.fields, lim);
    case Rows(rows) =>
      forall i | 0 <= i < |rows| {
        ForbiddenFieldsDoNotLeak(rows[i], w.rows[i], lim);
      }
    case List(items) =>
      forall i | 0 <= i < |items| {
        ForbiddenValuesDoNotLeak(items[i], w.items[i], lim);
      }
    case Foreign(image) => ForbiddenValuesDoNotLeak(image, w.image, lim);
    case _ =>
  }

  lemma {:induction false} ForbiddenFieldsDoNotLeak(f: Fields, g: Fields, lim: Limits)
    requires SameFieldsButForbidden(f, g)
    ensures SanitizeFields(f, lim) == SanitizeFields(g, lim)
    decreases f
  {
    var a, b := SanitizeFields(f, lim).m, SanitizeFields(g, lim).m;
    forall k
      ensures k in a <==> k in b
      ensures k in a && k in b ==> a[k] == b[k]
    {
      SanitizedField(f, lim, k);
      SanitizedField(g, lim, k);
      if k in f.m && !IsForbiddenKey(k) {
        ForbiddenValuesDoNotLeak(f.m[k], g.m[k], lim);
      }
      hide SanitizeFields, Sanitize, SameButForbidden, IsForbiddenKey;
    }
    hide SanitizeFields, SameFieldsButForbidden;
    assert a == b;
  }

  lemma SanitizedField(f: Fields, lim: Limits, k: string)
    ensures k in SanitizeFields(f, lim).m <==> k in f.m && !IsForbiddenKey(k) && Sanitize(f.m[k], lim) != Null
    ensures k in SanitizeFields(f, lim).m ==> SanitizeFields(f, lim).m[k] == Sanitize(f.m[k], lim)
  {
  }
}
